/**
 * `generateBasicIdf` (src/store-simple.ts), the document the simple store
 * exports: header, one zone named after the store's zone, either an ideal-loads
 * HVAC system or natural ventilation for it, the floor, the ceiling, the North
 * wall and its window, and a four-construction catalog. Unlike `generateIdf`
 * it prints the building's north angle in degrees and the zone's true volume.
 *
 * The materials only reach a closing comment, and the window records are
 * accepted but never read.
 */
module BasicIdf {
  import opened Wrappers
  import opened ModelTypes
  import opened Idf
  import opened IdfBlocks
  import Text

  // ---------------------------------------------------------------------------
  // North angle

  /** `Math.PI`. */
  const Pi: real := 3.141592653589793

  /** The integer part of `q`, rounding towards zero. */
  function Trunc(q: real): (n: int)
    ensures q >= 0.0 ==> n as real <= q < n as real + 1.0
    ensures q < 0.0 ==> n as real - 1.0 < q <= n as real
  {
    if q >= 0.0 then q.Floor else -((-q).Floor)
  }

  /** JavaScript's `x % y` on numbers: the remainder of the division truncated towards zero. */
  function JsRem(x: real, y: real): real
    requires y > 0.0
  {
    x - y * Trunc(x / y) as real
  }

  /** Dividing by `y` and multiplying back gives the dividend. */
  lemma QuotientTimesDivisor(x: real, y: real)
    requires y > 0.0
    ensures y * (x / y) == x
  {
  }

  /** The quotient by a positive divisor has the dividend's sign. */
  lemma QuotientSign(x: real, y: real)
    requires y > 0.0
    ensures x >= 0.0 <==> x / y >= 0.0
  {
    QuotientTimesDivisor(x, y);
  }

  /** A dividend smaller than the divisor in magnitude has a quotient in `(-1, 1)`. */
  lemma QuotientBelowOne(x: real, y: real)
    requires y > 0.0 && -y < x < y
    ensures -1.0 < x / y < 1.0
  {
    QuotientTimesDivisor(x, y);
  }

  lemma ScaledFraction(y: real, f: real)
    requires y > 0.0 && 0.0 <= f < 1.0
    ensures 0.0 <= y * f < y && -y < y * -f <= 0.0
  {
  }

  lemma ScaledNegativeFraction(y: real, f: real)
    requires y > 0.0 && -1.0 < f <= 0.0
    ensures -y < y * f <= 0.0
  {
    ScaledFraction(y, -f);
    assert y * -f == -(y * f);
  }

  /** The remainder is `y` times the fractional part of the quotient. */
  lemma RemIsScaledFraction(x: real, y: real)
    requires y > 0.0
    ensures JsRem(x, y) == y * (x / y - Trunc(x / y) as real)
  {
    var q := x / y;
    var n := Trunc(q);
    QuotientTimesDivisor(x, y);
    assert y * q - y * n as real == y * (q - n as real);
  }

  lemma JsRemNonNegative(x: real, y: real)
    requires y > 0.0 && x >= 0.0
    ensures 0.0 <= JsRem(x, y) < y
  {
    QuotientSign(x, y);
    var q := x / y;
    var n := Trunc(q);
    assert n as real <= q < n as real + 1.0;
    var f := q - n as real;
    assert 0.0 <= f < 1.0;
    RemIsScaledFraction(x, y);
    ScaledFraction(y, f);
    assert JsRem(x, y) == y * f;
  }

  lemma JsRemNegative(x: real, y: real)
    requires y > 0.0 && x < 0.0
    ensures -y < JsRem(x, y) <= 0.0
  {
    QuotientSign(x, y);
    var q := x / y;
    var n := Trunc(q);
    assert n as real - 1.0 < q <= n as real;
    var f := q - n as real;
    assert -1.0 < f <= 0.0;
    RemIsScaledFraction(x, y);
    ScaledNegativeFraction(y, f);
    assert JsRem(x, y) == y * f;
  }

  lemma JsRemSmall(x: real, y: real)
    requires y > 0.0 && -y < x < y
    ensures JsRem(x, y) == x
  {
    QuotientBelowOne(x, y);
    assert Trunc(x / y) == 0;
  }

  /**
   * The remainder takes the sign of the dividend and is smaller than the
   * divisor in magnitude; a dividend already inside `(-y, y)` is its own
   * remainder.
   */
  lemma JsRemBounds(x: real, y: real)
    requires y > 0.0
    ensures x >= 0.0 ==> 0.0 <= JsRem(x, y) < y
    ensures x < 0.0 ==> -y < JsRem(x, y) <= 0.0
    ensures -y < x < y ==> JsRem(x, y) == x
  {
    if x >= 0.0 {
      JsRemNonNegative(x, y);
    } else {
      JsRemNegative(x, y);
    }
    if -y < x < y {
      JsRemSmall(x, y);
    }
  }

  /** The north angle in degrees, as `(northAngle * 180 / Math.PI) % 360`. */
  function NorthDegrees(northAngle: real): real {
    JsRem(northAngle * 180.0 / Pi, 360.0)
  }

  /** The printed north axis lies strictly between -360 and 360 and keeps the sign of the angle. */
  lemma NorthDegreesRange(northAngle: real)
    ensures northAngle >= 0.0 ==> 0.0 <= NorthDegrees(northAngle) < 360.0
    ensures northAngle < 0.0 ==> -360.0 < NorthDegrees(northAngle) <= 0.0
  {
    var x := northAngle * 180.0 / Pi;
    assert northAngle >= 0.0 ==> x >= 0.0;
    assert northAngle < 0.0 ==> x < 0.0;
    JsRemBounds(x, 360.0);
  }

  /** Truncating a non-negative quotient one larger gives an integer part one larger. */
  lemma TruncPlusOne(q: real)
    requires q >= 0.0
    ensures Trunc(q + 1.0) == Trunc(q) + 1
  {
    assert (q + 1.0).Floor == q.Floor + 1;
  }

  /** A non-negative angle one full turn larger prints the same north axis. */
  lemma NorthDegreesPeriodic(a: real)
    requires a >= 0.0
    ensures NorthDegrees(a + 2.0 * Pi) == NorthDegrees(a)
  {
    var x := a * 180.0 / Pi;
    assert x >= 0.0;
    assert (a + 2.0 * Pi) * 180.0 / Pi == x + 360.0;
    assert (x + 360.0) / 360.0 == x / 360.0 + 1.0;
    TruncPlusOne(x / 360.0);
  }

  /**
   * The remainder is not periodic across zero: a negative angle within one
   * turn prints a negative north axis, 360 degrees below the one its
   * positive equivalent prints.
   */
  lemma NorthDegreesAcrossZero(a: real)
    requires -2.0 * Pi < a < 0.0
    ensures NorthDegrees(a) < 0.0 <= NorthDegrees(a + 2.0 * Pi)
    ensures NorthDegrees(a + 2.0 * Pi) == NorthDegrees(a) + 360.0
  {
    var x := a * 180.0 / Pi;
    assert -360.0 < x < 0.0;
    assert (a + 2.0 * Pi) * 180.0 / Pi == x + 360.0;
    JsRemSmall(x, 360.0);
    JsRemSmall(x + 360.0, 360.0);
  }

  // ---------------------------------------------------------------------------
  // Sections

  const WallConstructionName: string := "WALL-CONSTRUCTION"
  const FloorConstructionName: string := "FLOOR-CONSTRUCTION"
  const CeilingConstructionName: string := "CEILING-CONSTRUCTION"
  const WindowConstructionName: string := "WINDOW-CONSTRUCTION"

  /** The zone name every surface of the written generator carries. */
  const WrittenSurfaceZone: string := "Zone Default"

  function HeaderSection(d: Dimensions, northAngle: real, building: BuildingInfo, zone: ZoneInfo): seq<IdfObject> {
    [ Version, Building(building.name, Num(NorthDegrees(northAngle))), GlobalGeometryRules,
      Zone(zone.name, d.height, Volume(d)) ]
  }

  /**
   * An ideal-loads system (connections, equipment list, ideal loads) for a
   * conditioned zone; one ventilation object with design flow twice the zone's
   * volume for a naturally ventilated one.
   */
  function HvacSection(d: Dimensions, zone: ZoneInfo): seq<IdfObject> {
    if zone.conditioned then
      [EquipmentConnections(zone.name), EquipmentList(zone.name), IdealLoads(zone.name)]
    else
      [Ventilation(zone.name, Volume(d) * 2.0)]
  }

  /** Floor, Ceiling, the North wall and its window, all surfaces in zone `surfaceZone`. */
  function SurfaceSection(d: Dimensions, surfaceZone: string): seq<IdfObject> {
    [ FloorSurface(d, FloorConstructionName, surfaceZone),
      CeilingSurface(d, CeilingConstructionName, surfaceZone),
      WallSurface(d, North, WallConstructionName, surfaceZone),
      WindowSurface(d, North, WindowConstructionName) ]
  }

  const CatalogSection: seq<IdfObject> :=
    [ ConcreteMaterial,
      Construction(WallConstructionName, ["Concrete"]),
      Construction(FloorConstructionName, ["Concrete"]),
      Construction(CeilingConstructionName, ["Concrete"]),
      Clear3mmGlazing,
      Construction(WindowConstructionName, ["Clear 3mm"]) ]

  function BasicDocument(d: Dimensions, northAngle: real, building: BuildingInfo, zone: ZoneInfo,
                         surfaceZone: string): seq<IdfObject>
  {
    HeaderSection(d, northAngle, building, zone) + HvacSection(d, zone)
    + SurfaceSection(d, surfaceZone) + CatalogSection
  }

  /** `generateBasicIdf` as written: every surface names the zone "Zone Default". */
  function GenerateBasicIdf(d: Dimensions, northAngle: real, materials: Materials, building: BuildingInfo,
                            zone: ZoneInfo, windowDimensions: map<string, WindowDims>): seq<IdfObject>
  {
    BasicDocument(d, northAngle, building, zone, WrittenSurfaceZone)
  }

  /** `generateBasicIdf` with every surface in the zone it declares. */
  function GenerateBasicIdfCorrected(d: Dimensions, northAngle: real, materials: Materials, building: BuildingInfo,
                                     zone: ZoneInfo, windowDimensions: map<string, WindowDims>): seq<IdfObject>
  {
    BasicDocument(d, northAngle, building, zone, zone.name)
  }

  function HvacHeading(conditioned: bool): string {
    if conditioned then "\n! SISTEMA HVAC PARA ZONA CONDICIONADA\n"
    else "\n! VENTILAÇÃO NATURAL PARA ZONA NÃO CONDICIONADA\n"
  }

  /** The closing comment; `stringify` stands for `JSON.stringify`. */
  function MaterialsTrailer(materials: Materials, stringify: Materials -> string): string {
    "! Arquivo gerado pelo Tropos3D - Materiais: " + stringify(materials) + "\n"
  }

  /** The comment each section is printed under. */
  function BasicHeadings(conditioned: bool): seq<string> {
    [Banner, HvacHeading(conditioned), SurfacesComment, CatalogComment]
  }

  /** The sections of the document, in the order they are printed. */
  function BasicSections(d: Dimensions, northAngle: real, building: BuildingInfo, zone: ZoneInfo,
                         surfaceZone: string): seq<seq<IdfObject>>
  {
    [ HeaderSection(d, northAngle, building, zone), HvacSection(d, zone), SurfaceSection(d, surfaceZone),
      CatalogSection ]
  }

  /** The text `generateBasicIdf` returns: each section under its heading, then the closing comment. */
  function GenerateBasicIdfText(d: Dimensions, northAngle: real, materials: Materials, building: BuildingInfo,
                                zone: ZoneInfo, windowDimensions: map<string, WindowDims>,
                                formatNum: real -> string, stringify: Materials -> string): string
  {
    Layout(BasicHeadings(zone.conditioned), BasicSections(d, northAngle, building, zone, WrittenSurfaceZone),
           formatNum)
    + MaterialsTrailer(materials, stringify)
  }

  // ---------------------------------------------------------------------------
  // Properties

  /** Neither the materials nor the window records change the document. */
  lemma GenerateBasicIdfIgnoresMaterialsAndWindows(d: Dimensions, northAngle: real, building: BuildingInfo,
                                                  zone: ZoneInfo, m1: Materials, m2: Materials,
                                                  w1: map<string, WindowDims>, w2: map<string, WindowDims>)
    ensures GenerateBasicIdf(d, northAngle, m1, building, zone, w1) == GenerateBasicIdf(d, northAngle, m2, building, zone, w2)
  {
  }

  /** Two texts built from different materials differ only in their closing comments. */
  lemma GenerateBasicIdfTextMaterialsInTrailerOnly(d: Dimensions, northAngle: real, building: BuildingInfo,
                                                   zone: ZoneInfo, m1: Materials, m2: Materials,
                                                   w1: map<string, WindowDims>, w2: map<string, WindowDims>,
                                                   formatNum: real -> string, stringify: Materials -> string)
    ensures var t1 := GenerateBasicIdfText(d, northAngle, m1, building, zone, w1, formatNum, stringify);
            var t2 := GenerateBasicIdfText(d, northAngle, m2, building, zone, w2, formatNum, stringify);
            var n1 := |t1| - |MaterialsTrailer(m1, stringify)|;
            var n2 := |t2| - |MaterialsTrailer(m2, stringify)|;
            0 <= n1 && 0 <= n2 && t1[..n1] == t2[..n2] && t1[n1..] == MaterialsTrailer(m1, stringify)
  {
    var body := Layout(BasicHeadings(zone.conditioned), BasicSections(d, northAngle, building, zone, WrittenSurfaceZone),
                       formatNum);
    Text.JoinParts(body, MaterialsTrailer(m1, stringify));
    Text.JoinParts(body, MaterialsTrailer(m2, stringify));
  }

  /** The classes the HVAC section may hold. */
  predicate IsHvacClass(c: ObjectClass) {
    c == EquipmentConnectionsClass || c == EquipmentListClass || c == IdealLoadsClass || c == VentilationClass
  }

  /** The HVAC section holds one object of each ideal-loads class for a conditioned zone, else one ventilation. */
  lemma HvacCount(d: Dimensions, zone: ZoneInfo, c: ObjectClass)
    requires IsHvacClass(c)
    ensures CountClass(HvacSection(d, zone), c) == if (c == VentilationClass) != zone.conditioned then 1 else 0
  {
    if zone.conditioned {
      var a := [EquipmentConnections(zone.name)];
      var b := [EquipmentList(zone.name)];
      var e := [IdealLoads(zone.name)];
      assert HvacSection(d, zone) == a + b + e;
      CountClassAppend(a + b, e, c);
      CountClassAppend(a, b, c);
      CountClassSingle(a[0], c);
      CountClassSingle(b[0], c);
      CountClassSingle(e[0], c);
    } else {
      CountClassSingle(Ventilation(zone.name, Volume(d) * 2.0), c);
    }
  }

  /** Header, surfaces and catalog hold no HVAC object. */
  lemma OtherSectionsHoldNoHvac(d: Dimensions, northAngle: real, building: BuildingInfo, zone: ZoneInfo,
                                surfaceZone: string, c: ObjectClass)
    requires IsHvacClass(c)
    ensures CountClass(HeaderSection(d, northAngle, building, zone), c) == 0
    ensures CountClass(SurfaceSection(d, surfaceZone), c) == 0
    ensures CountClass(CatalogSection, c) == 0
  {
    var hd := HeaderSection(d, northAngle, building, zone);
    var s := SurfaceSection(d, surfaceZone);
    assert forall k :: 0 <= k < |hd| ==> ClassOf(hd[k]) != c;
    assert forall k :: 0 <= k < |s| ==> ClassOf(s[k]) != c;
    assert forall k :: 0 <= k < |CatalogSection| ==> ClassOf(CatalogSection[k]) != c;
    NoneOfClass(hd, c);
    NoneOfClass(s, c);
    NoneOfClass(CatalogSection, c);
  }

  /** The document holds as many objects of an HVAC class as its HVAC section. */
  lemma BasicDocumentHvacCount(d: Dimensions, northAngle: real, building: BuildingInfo, zone: ZoneInfo,
                               surfaceZone: string, c: ObjectClass)
    requires IsHvacClass(c)
    ensures CountClass(BasicDocument(d, northAngle, building, zone, surfaceZone), c)
            == if (c == VentilationClass) != zone.conditioned then 1 else 0
  {
    var hd := HeaderSection(d, northAngle, building, zone);
    var h := HvacSection(d, zone);
    var s := SurfaceSection(d, surfaceZone);
    HvacCount(d, zone, c);
    OtherSectionsHoldNoHvac(d, northAngle, building, zone, surfaceZone, c);
    CountClassAppend(hd, h, c);
    CountClassAppend(hd + h, s, c);
    CountClassAppend(hd + h + s, CatalogSection, c);
  }

  /**
   * A conditioned zone gets exactly one each of the connections, equipment
   * list and ideal-loads objects and no ventilation; a naturally ventilated
   * zone gets exactly one ventilation object and none of the three. Never both.
   */
  lemma BasicDocumentHvac(d: Dimensions, northAngle: real, building: BuildingInfo, zone: ZoneInfo,
                          surfaceZone: string)
    ensures var doc := BasicDocument(d, northAngle, building, zone, surfaceZone);
            var on := if zone.conditioned then 1 else 0;
            && CountClass(doc, EquipmentConnectionsClass) == on
            && CountClass(doc, EquipmentListClass) == on
            && CountClass(doc, IdealLoadsClass) == on
            && CountClass(doc, VentilationClass) == 1 - on
  {
    BasicDocumentHvacCount(d, northAngle, building, zone, surfaceZone, EquipmentConnectionsClass);
    BasicDocumentHvacCount(d, northAngle, building, zone, surfaceZone, EquipmentListClass);
    BasicDocumentHvacCount(d, northAngle, building, zone, surfaceZone, IdealLoadsClass);
    BasicDocumentHvacCount(d, northAngle, building, zone, surfaceZone, VentilationClass);
  }

  /** The ventilation object, when there is one, serves the zone with a design flow of twice its volume. */
  lemma BasicDocumentVentilation(d: Dimensions, northAngle: real, building: BuildingInfo, zone: ZoneInfo,
                                 surfaceZone: string)
    requires !zone.conditioned
    ensures var v := BasicDocument(d, northAngle, building, zone, surfaceZone)[4];
            && v.Ventilation?
            && TextAt(Fields(v), 1) == Some(zone.name)
            && NumAt(Fields(v), 4) == Some(Volume(d) * 2.0)
  {
    var v := Ventilation(zone.name, Volume(d) * 2.0);
    assert BasicDocument(d, northAngle, building, zone, surfaceZone)[4] == v;
    VentilationReadBack(v);
  }

  /** Within the HVAC section of a conditioned zone, each object names the next, which the section defines. */
  lemma HvacSectionChain(d: Dimensions, zone: ZoneInfo)
    requires zone.conditioned
    ensures var h := HvacSection(d, zone);
            && |h| == 3
            && TextAt(Fields(h[0]), 0) == Some(zone.name)
            && TextAt(Fields(h[0]), 1) == Some(EquipmentListName(zone.name))
            && Defines(h, EquipmentListClass, EquipmentListName(zone.name))
            && TextAt(Fields(h[1]), 2) == Some(IdealLoadsName(zone.name))
            && Defines(h, IdealLoadsClass, IdealLoadsName(zone.name))
  {
    var h := HvacSection(d, zone);
    assert Fields(h[0]) == EquipmentConnectionsFields(zone.name);
    assert Fields(h[1]) == EquipmentListFields(zone.name);
    assert h[1] in h && h[2] in h;
  }

  /** The equipment connections name the equipment list, which names the ideal-loads system, all of them defined. */
  lemma BasicDocumentHvacChain(d: Dimensions, northAngle: real, building: BuildingInfo, zone: ZoneInfo,
                               surfaceZone: string)
    requires zone.conditioned
    ensures var doc := BasicDocument(d, northAngle, building, zone, surfaceZone);
            && TextAt(Fields(doc[4]), 0) == Some(zone.name)
            && TextAt(Fields(doc[4]), 1) == Some(EquipmentListName(zone.name))
            && Defines(doc, EquipmentListClass, EquipmentListName(zone.name))
            && TextAt(Fields(doc[5]), 2) == Some(IdealLoadsName(zone.name))
            && Defines(doc, IdealLoadsClass, IdealLoadsName(zone.name))
  {
    var doc := BasicDocument(d, northAngle, building, zone, surfaceZone);
    var hd := HeaderSection(d, northAngle, building, zone);
    var h := HvacSection(d, zone);
    var rest := SurfaceSection(d, surfaceZone) + CatalogSection;
    HvacSectionChain(d, zone);
    assert doc == hd + h + rest;
    assert doc[4] == h[0] && doc[5] == h[1];
    assert forall o :: o in h ==> o in doc;
    DefinesWithin(h, doc, EquipmentListClass, EquipmentListName(zone.name));
    DefinesWithin(h, doc, IdealLoadsClass, IdealLoadsName(zone.name));
  }

  /** The document holds every catalog object. */
  lemma CatalogInBasicDocument(d: Dimensions, northAngle: real, building: BuildingInfo, zone: ZoneInfo,
                               surfaceZone: string)
    ensures forall c :: c in CatalogSection ==> c in BasicDocument(d, northAngle, building, zone, surfaceZone)
  {
    var rest := HeaderSection(d, northAngle, building, zone) + HvacSection(d, zone) + SurfaceSection(d, surfaceZone);
    assert BasicDocument(d, northAngle, building, zone, surfaceZone) == rest + CatalogSection;
  }

  /** Only the surface section's objects name a construction. */
  lemma BasicConstructionUser(d: Dimensions, northAngle: real, building: BuildingInfo, zone: ZoneInfo,
                              surfaceZone: string, o: IdfObject) returns (k: nat)
    requires o in BasicDocument(d, northAngle, building, zone, surfaceZone) && ConstructionOf(o).Some?
    ensures k < 4 && SurfaceSection(d, surfaceZone)[k] == o
  {
    var s := SurfaceSection(d, surfaceZone);
    assert BasicDocument(d, northAngle, building, zone, surfaceZone)
        == HeaderSection(d, northAngle, building, zone) + HvacSection(d, zone) + s + CatalogSection;
    k :| 0 <= k < 4 && s[k] == o;
  }

  /** The catalog defines the construction each surface names. */
  lemma CatalogDefinesSurfaceConstruction(d: Dimensions, surfaceZone: string, k: nat)
    requires k < 4
    ensures ConstructionOf(SurfaceSection(d, surfaceZone)[k]).Some?
    ensures Defines(CatalogSection, ConstructionClass, ConstructionOf(SurfaceSection(d, surfaceZone)[k]).value)
  {
    var j := if k == 0 then 2 else if k == 1 then 3 else if k == 2 then 1 else 5;
    CatalogSectionConstructionDefined(j, ConstructionOf(SurfaceSection(d, surfaceZone)[k]).value);
  }

  /** The construction at position `j` of the catalog defines its name. */
  lemma CatalogSectionConstructionDefined(j: nat, name: string)
    requires j < |CatalogSection| && CatalogSection[j].Construction? && CatalogSection[j].name == name
    ensures Defines(CatalogSection, ConstructionClass, name)
  {
    DefinesMember(CatalogSection, CatalogSection[j], ConstructionClass, name);
  }

  /** The only zone is the fourth object: named after the store's zone, the zone's height, volume width·length·height. */
  lemma BasicDocumentZone(d: Dimensions, northAngle: real, building: BuildingInfo, zone: ZoneInfo,
                          surfaceZone: string)
    ensures var doc := BasicDocument(d, northAngle, building, zone, surfaceZone);
            && doc[3].Zone?
            && TextAt(Fields(doc[3]), 0) == Some(zone.name)
            && NumAt(Fields(doc[3]), 7) == Some(d.height)
            && NumAt(Fields(doc[3]), 8) == Some(Volume(d))
            && forall o :: o in doc && ClassOf(o) == ZoneClass ==> o == doc[3]
  {
    var doc := BasicDocument(d, northAngle, building, zone, surfaceZone);
    var hd := HeaderSection(d, northAngle, building, zone);
    var rest := HvacSection(d, zone) + SurfaceSection(d, surfaceZone) + CatalogSection;
    assert doc == hd + rest;
    ZoneReadBack(hd[3]);
    HeaderHoldsOneZone(d, northAngle, building, zone);
    RestHoldsNoZone(d, zone, surfaceZone);
  }

  /** The header's only zone is its fourth object. */
  lemma HeaderHoldsOneZone(d: Dimensions, northAngle: real, building: BuildingInfo, zone: ZoneInfo)
    ensures var hd := HeaderSection(d, northAngle, building, zone);
            forall o :: o in hd && ClassOf(o) == ZoneClass ==> o == hd[3]
  {
  }

  /** HVAC, surfaces and catalog hold no zone. */
  lemma RestHoldsNoZone(d: Dimensions, zone: ZoneInfo, surfaceZone: string)
    ensures forall o :: o in HvacSection(d, zone) + SurfaceSection(d, surfaceZone) + CatalogSection
              ==> ClassOf(o) != ZoneClass
  {
    var rest := HvacSection(d, zone) + SurfaceSection(d, surfaceZone) + CatalogSection;
    assert forall k :: 0 <= k < |rest| ==> ClassOf(rest[k]) != ZoneClass;
  }

  /** The building's name is the store's, and its north axis is the angle in degrees modulo 360. */
  lemma BasicDocumentBuilding(d: Dimensions, northAngle: real, building: BuildingInfo, zone: ZoneInfo,
                              surfaceZone: string)
    ensures var b := BasicDocument(d, northAngle, building, zone, surfaceZone)[1];
            && b.Building?
            && TextAt(Fields(b), 0) == Some(building.name)
            && NumAt(Fields(b), 1) == Some(NorthDegrees(northAngle))
  {
  }

  /** The document's surfaces are Floor, Ceiling, Wall North and Window North, in that order. */
  lemma BasicDocumentSurfaces(d: Dimensions, northAngle: real, building: BuildingInfo, zone: ZoneInfo,
                              surfaceZone: string)
    ensures SurfacesOf(BasicDocument(d, northAngle, building, zone, surfaceZone)) == SurfaceSection(d, surfaceZone)
  {
    var hd := HeaderSection(d, northAngle, building, zone);
    var h := HvacSection(d, zone);
    var s := SurfaceSection(d, surfaceZone);
    SurfacesOfNone(hd);
    SurfacesOfNone(h);
    SurfacesOfAllSurfaces(s);
    SurfacesOfNone(CatalogSection);
    SurfacesOfAppend(hd, h);
    SurfacesOfAppend(hd + h, s);
    SurfacesOfAppend(hd + h + s, CatalogSection);
  }

  /** Every surface of the written generator names the zone "Zone Default", whatever the zone is called. */
  lemma GenerateBasicIdfSurfaceZones(d: Dimensions, northAngle: real, materials: Materials, building: BuildingInfo,
                                     zone: ZoneInfo, windowDimensions: map<string, WindowDims>)
    ensures var doc := GenerateBasicIdf(d, northAngle, materials, building, zone, windowDimensions);
            forall o :: o in doc && o.Surface? ==> ZoneOf(o) == Some(WrittenSurfaceZone)
  {
    var doc := GenerateBasicIdf(d, northAngle, materials, building, zone, windowDimensions);
    forall o | o in doc && o.Surface? ensures ZoneOf(o) == Some(WrittenSurfaceZone) {
      BasicDocumentSurfaces(d, northAngle, building, zone, WrittenSurfaceZone);
      SurfacesOfMembers(doc, o);
    }
  }

  /**
   * The window sits 0.01 inside the North wall's plane, 1.5 m wide and from
   * 1 m to 2.1 m high, whatever the dimensions and window records are.
   */
  lemma BasicWindowNorth(d: Dimensions, surfaceZone: string)
    ensures var w := SurfaceSection(d, surfaceZone)[3];
            && w.Fenestration? && w.baseSurface == WallName(North) && |w.vertices| == 4
            && (forall k :: 0 <= k < 4 ==> w.vertices[k].z == -d.length / 2.0 + 0.01)
            && (forall k :: 0 <= k < 4 ==> w.vertices[k].x == 0.75 || w.vertices[k].x == -0.75)
            && Heights(w.vertices) == [2.1, 1.0, 1.0, 2.1]
  {
    WindowGeometry(d, North);
  }

  /** Every construction a surface names is defined in the catalog. */
  lemma BasicDocumentConstructionsResolved(d: Dimensions, northAngle: real, building: BuildingInfo, zone: ZoneInfo,
                                           surfaceZone: string)
    ensures ConstructionsResolved(BasicDocument(d, northAngle, building, zone, surfaceZone))
  {
    var doc := BasicDocument(d, northAngle, building, zone, surfaceZone);
    CatalogInBasicDocument(d, northAngle, building, zone, surfaceZone);
    forall o | o in doc && ConstructionOf(o).Some?
      ensures Defines(doc, ConstructionClass, ConstructionOf(o).value)
    {
      var k := BasicConstructionUser(d, northAngle, building, zone, surfaceZone, o);
      CatalogDefinesSurfaceConstruction(d, surfaceZone, k);
      DefinesWithin(CatalogSection, doc, ConstructionClass, ConstructionOf(o).value);
    }
  }

  /** Every layer a construction lists is defined in the catalog. */
  lemma BasicDocumentLayersResolved(d: Dimensions, northAngle: real, building: BuildingInfo, zone: ZoneInfo,
                                    surfaceZone: string)
    ensures LayersResolved(BasicDocument(d, northAngle, building, zone, surfaceZone))
  {
    var doc := BasicDocument(d, northAngle, building, zone, surfaceZone);
    var c := CatalogSection;
    assert doc == HeaderSection(d, northAngle, building, zone) + HvacSection(d, zone)
                  + SurfaceSection(d, surfaceZone) + c;
    assert c[0] in doc && c[4] in doc;
    forall o, k | o in doc && o.Construction? && 0 <= k < |o.layers|
      ensures DefinesLayer(doc, o.layers[k])
    {
      assert o in c;
    }
  }

  /** The window's wall is defined. */
  lemma BasicDocumentBaseSurfacesResolved(d: Dimensions, northAngle: real, building: BuildingInfo, zone: ZoneInfo,
                                          surfaceZone: string)
    ensures BaseSurfacesResolved(BasicDocument(d, northAngle, building, zone, surfaceZone))
  {
    var doc := BasicDocument(d, northAngle, building, zone, surfaceZone);
    var s := SurfaceSection(d, surfaceZone);
    assert doc == HeaderSection(d, northAngle, building, zone) + HvacSection(d, zone) + s + CatalogSection;
    assert s[2] in doc;
    forall o | o in doc && o.Fenestration? ensures Defines(doc, SurfaceClass, o.baseSurface) {
      assert o in s;
    }
  }

  /** Which zone references resolve: the HVAC objects always, the surfaces when they name the zone's own name. */
  lemma BasicDocumentZoneReferences(d: Dimensions, northAngle: real, building: BuildingInfo, zone: ZoneInfo,
                                    surfaceZone: string)
    ensures ZonesResolved(BasicDocument(d, northAngle, building, zone, surfaceZone)) <==> surfaceZone == zone.name
  {
    if surfaceZone == zone.name {
      BasicZonesResolved(d, northAngle, building, zone);
    } else {
      BasicZonesUnresolved(d, northAngle, building, zone, surfaceZone);
    }
  }

  /** With the surfaces in the declared zone, every zone reference resolves. */
  lemma BasicZonesResolved(d: Dimensions, northAngle: real, building: BuildingInfo, zone: ZoneInfo)
    ensures ZonesResolved(BasicDocument(d, northAngle, building, zone, zone.name))
  {
    var doc := BasicDocument(d, northAngle, building, zone, zone.name);
    assert doc[3] == Zone(zone.name, d.height, Volume(d));
    DefinesMember(doc, doc[3], ZoneClass, zone.name);
    SectionZoneReferences(d, northAngle, building, zone, zone.name);
    assert doc == HeaderSection(d, northAngle, building, zone) + HvacSection(d, zone)
                  + SurfaceSection(d, zone.name) + CatalogSection;
  }

  /** Header and catalog refer to no zone, the HVAC objects to the declared zone, the surfaces to `surfaceZone`. */
  lemma SectionZoneReferences(d: Dimensions, northAngle: real, building: BuildingInfo, zone: ZoneInfo,
                              surfaceZone: string)
    ensures forall o :: o in HeaderSection(d, northAngle, building, zone) ==> ZoneOf(o).None?
    ensures forall o :: o in HvacSection(d, zone) ==> ZoneOf(o).None? || ZoneOf(o) == Some(zone.name)
    ensures forall o :: o in SurfaceSection(d, surfaceZone) ==> ZoneOf(o).None? || ZoneOf(o) == Some(surfaceZone)
    ensures forall o :: o in CatalogSection ==> ZoneOf(o).None?
  {
    var hd := HeaderSection(d, northAngle, building, zone);
    var h := HvacSection(d, zone);
    var s := SurfaceSection(d, surfaceZone);
    assert forall k :: 0 <= k < |hd| ==> ZoneOf(hd[k]).None?;
    assert forall k :: 0 <= k < |h| ==> ZoneOf(h[k]).None? || ZoneOf(h[k]) == Some(zone.name);
    assert forall k :: 0 <= k < |s| ==> ZoneOf(s[k]).None? || ZoneOf(s[k]) == Some(surfaceZone);
    assert forall k :: 0 <= k < |CatalogSection| ==> ZoneOf(CatalogSection[k]).None?;
  }

  /** With the surfaces in another zone, the floor names a zone the document does not declare. */
  lemma BasicZonesUnresolved(d: Dimensions, northAngle: real, building: BuildingInfo, zone: ZoneInfo,
                             surfaceZone: string)
    requires surfaceZone != zone.name
    ensures !ZonesResolved(BasicDocument(d, northAngle, building, zone, surfaceZone))
  {
    var doc := BasicDocument(d, northAngle, building, zone, surfaceZone);
    BasicDocumentZone(d, northAngle, building, zone, surfaceZone);
    var s := SurfaceSection(d, surfaceZone);
    assert s[0] == doc[|HeaderSection(d, northAngle, building, zone) + HvacSection(d, zone)|];
    assert ZoneOf(s[0]) == Some(surfaceZone);
    assert doc[3] == Zone(zone.name, d.height, Volume(d));
    forall z | z in doc && ClassOf(z) == ZoneClass ensures NameOf(z) != Some(surfaceZone) {
      assert z == doc[3];
    }
  }

  /** As written, the document's zone references resolve only when the zone is named "Zone Default". */
  lemma GenerateBasicIdfZonesResolvedIff(d: Dimensions, northAngle: real, materials: Materials, building: BuildingInfo,
                                         zone: ZoneInfo, windowDimensions: map<string, WindowDims>)
    ensures ZonesResolved(GenerateBasicIdf(d, northAngle, materials, building, zone, windowDimensions))
            <==> zone.name == WrittenSurfaceZone
  {
    BasicDocumentZoneReferences(d, northAngle, building, zone, WrittenSurfaceZone);
  }

  /** The store's initial zone, "Zona Padrão", is one for which the written document leaves its surfaces without a zone. */
  lemma GenerateBasicIdfInitialZoneUnresolved(d: Dimensions, northAngle: real, materials: Materials,
                                              building: BuildingInfo, windowDimensions: map<string, WindowDims>)
    ensures !ZonesResolved(GenerateBasicIdf(d, northAngle, materials, building, ZoneInfo("Zona Padrão", true), windowDimensions))
  {
    var zone := ZoneInfo("Zona Padrão", true);
    assert zone.name[3] != WrittenSurfaceZone[3];
    GenerateBasicIdfZonesResolvedIff(d, northAngle, materials, building, zone, windowDimensions);
  }

  /** The corrected document resolves every zone, construction, layer and wall reference. */
  lemma GenerateBasicIdfCorrectedResolved(d: Dimensions, northAngle: real, materials: Materials,
                                          building: BuildingInfo, zone: ZoneInfo,
                                          windowDimensions: map<string, WindowDims>)
    ensures var doc := GenerateBasicIdfCorrected(d, northAngle, materials, building, zone, windowDimensions);
            ZonesResolved(doc) && ConstructionsResolved(doc) && LayersResolved(doc) && BaseSurfacesResolved(doc)
  {
    BasicDocumentZoneReferences(d, northAngle, building, zone, zone.name);
    BasicDocumentConstructionsResolved(d, northAngle, building, zone, zone.name);
    BasicDocumentLayersResolved(d, northAngle, building, zone, zone.name);
    BasicDocumentBaseSurfacesResolved(d, northAngle, building, zone, zone.name);
  }

  /** The printed text holds the printed form of every object of the document. */
  lemma GenerateBasicIdfTextHoldsEveryObject(d: Dimensions, northAngle: real, materials: Materials,
                                             building: BuildingInfo, zone: ZoneInfo,
                                             windowDimensions: map<string, WindowDims>,
                                             formatNum: real -> string, stringify: Materials -> string, o: IdfObject)
    requires o in GenerateBasicIdf(d, northAngle, materials, building, zone, windowDimensions)
    ensures Text.Contains(GenerateBasicIdfText(d, northAngle, materials, building, zone, windowDimensions,
                                               formatNum, stringify),
                          RenderObject(o, formatNum))
  {
    var sections := BasicSections(d, northAngle, building, zone, WrittenSurfaceZone);
    var headings := BasicHeadings(zone.conditioned);
    var i: nat := if o in sections[0] then 0 else if o in sections[1] then 1 else if o in sections[2] then 2 else 3;
    LayoutThenTrailerHoldsSection(headings, sections, formatNum, MaterialsTrailer(materials, stringify), i, o);
  }
}
