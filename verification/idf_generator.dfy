/**
 * `generateIdf` (src/services/idfGenerator.ts): the EnergyPlus document for
 * one rectangular zone, built from the zone's dimensions and the three
 * material tags. The document is a fixed sequence of 45 objects in six
 * sections: header, zone, surfaces, construction catalog, schedules and
 * report requests. Only the surface vertices, the zone's height and volume
 * and the three construction names depend on the inputs; `northAngle` is
 * accepted but has no effect.
 */
module IdfGenerator {
  import opened Wrappers
  import opened ModelTypes
  import opened Idf
  import opened IdfBlocks
  import Text

  // ---------------------------------------------------------------------------
  // Material tags to construction names

  function WallConstruction(tag: string): string
  {
    if tag == "brick" then "EXTERIOR-WALL"
    else if tag == "concrete" then "CONCRETE-WALL"
    else if tag == "wood" then "WOOD-WALL"
    else "PARTITION"
  }

  function WindowConstruction(tag: string): string
  {
    if tag == "single_clear" then "SINGLE-CLEAR"
    else if tag == "double_clear" then "DOUBLE-CLEAR"
    else "LOW-E-WINDOW"
  }

  function FloorConstruction(tag: string): string
  {
    if tag == "tile" then "FLOOR-TILE"
    else if tag == "carpet" then "FLOOR-CARPET"
    else "SLAB-ON-GRADE"
  }

  /** brick, concrete and wood have their own wall constructions; every other tag falls back to PARTITION. */
  lemma WallConstructionTable(tag: string)
    ensures WallConstruction("brick") == "EXTERIOR-WALL" && WallConstruction("concrete") == "CONCRETE-WALL"
            && WallConstruction("wood") == "WOOD-WALL"
    ensures WallConstruction(tag) == "PARTITION" <==> tag != "brick" && tag != "concrete" && tag != "wood"
  {
  }

  /** single_clear and double_clear have their own window constructions; every other tag falls back to LOW-E-WINDOW. */
  lemma WindowConstructionTable(tag: string)
    ensures WindowConstruction("single_clear") == "SINGLE-CLEAR" && WindowConstruction("double_clear") == "DOUBLE-CLEAR"
    ensures WindowConstruction(tag) == "LOW-E-WINDOW" <==> tag != "single_clear" && tag != "double_clear"
  {
  }

  /** tile and carpet have their own floor constructions; every other tag falls back to SLAB-ON-GRADE. */
  lemma FloorConstructionTable(tag: string)
    ensures FloorConstruction("tile") == "FLOOR-TILE" && FloorConstruction("carpet") == "FLOOR-CARPET"
    ensures FloorConstruction(tag) == "SLAB-ON-GRADE" <==> tag != "tile" && tag != "carpet"
  {
  }

  // ---------------------------------------------------------------------------
  // Sections

  /** The only zone's name, used by the zone and by every surface. */
  const DefaultZoneName: string := "Zone Default"

  /** Version, Building (North Axis always the literal 0.0), geometry rules, site and the two design days. */
  const HeaderObjects: seq<IdfObject> :=
    [ Version, Building("Tropos3D Building", Txt("0.0")), GlobalGeometryRules,
      Fixed(SaoPauloLocation), Fixed(SummerDesignDay), Fixed(WinterDesignDay) ]

  /**
   * Surface `k` of the surface section: Floor, Ceiling, then the wall and the
   * window of North, South, East and West in turn.
   */
  function SurfaceAt(d: Dimensions, m: Materials, k: nat): IdfObject
    requires k < 10
  {
    var floor := FloorConstruction(m.surface);
    if k == 0 then FloorSurface(d, floor, DefaultZoneName)
    else if k == 1 then CeilingSurface(d, floor, DefaultZoneName)
    else
      var o := Orientations[(k - 2) / 2];
      if k % 2 == 0 then WallSurface(d, o, WallConstruction(m.wall), DefaultZoneName)
      else WindowSurface(d, o, WindowConstruction(m.window))
  }

  function SurfaceObjects(d: Dimensions, m: Materials): (s: seq<IdfObject>)
    ensures |s| == 10
  {
    seq(10, k requires 0 <= k < 10 => SurfaceAt(d, m, k))
  }

  const ExteriorWall: IdfObject := Construction("EXTERIOR-WALL", ["Concrete"])
  const ConcreteWall: IdfObject := Construction("CONCRETE-WALL", ["Concrete"])
  const WoodLayer: IdfObject := Material("WoodLayer", "MediumSmooth", "0.05", "0.12", "600", "1630")
  const WoodWall: IdfObject := Construction("WOOD-WALL", ["WoodLayer"])
  const Partition: IdfObject := Construction("PARTITION", ["Concrete"])
  const SingleClear: IdfObject := Construction("SINGLE-CLEAR", ["Clear 3mm"])
  const DoubleClear: IdfObject := Construction("DOUBLE-CLEAR", ["Clear 3mm", "Air 6mm", "Clear 3mm"])
  const LowEWindow: IdfObject := Construction("LOW-E-WINDOW", ["Low-e 6mm"])
  const FloorTile: IdfObject := Material("FloorTile", "Smooth", "0.02", "0.8", "1900", "800")
  const FloorCarpet: IdfObject := Material("FloorCarpet", "Rough", "0.02", "0.06", "200", "1300")
  const FloorTileConstruction: IdfObject := Construction("FLOOR-TILE", ["FloorTile"])
  const FloorCarpetConstruction: IdfObject := Construction("FLOOR-CARPET", ["FloorCarpet"])
  const SlabOnGrade: IdfObject := Construction("SLAB-ON-GRADE", ["Concrete"])
  const LowE6mmGlazing: IdfObject := Glazing("Low-e 6mm", "0.006", "0.6", "0.17", "0.22", "0.84", "0.055", "0.078", "0.1")
  const Air6mmGas: IdfObject := Gas("Air 6mm", "Air", "0.006")

  /** Every material, glazing, gas and construction the generator can refer to. */
  const CatalogObjects: seq<IdfObject> :=
    [ ConcreteMaterial, ExteriorWall, ConcreteWall, WoodLayer, WoodWall, Partition,
      SingleClear, DoubleClear, LowEWindow, FloorTile, FloorCarpet,
      FloorTileConstruction, FloorCarpetConstruction, SlabOnGrade,
      Clear3mmGlazing, LowE6mmGlazing, Air6mmGas ]

  const ScheduleObjects: seq<IdfObject> :=
    [ Fixed(FractionLimits), Schedule("Always On", "1"), Schedule("Always Off", "0") ]

  const ReportObjects: seq<IdfObject> :=
    [ Fixed(AnnualRunPeriod), Fixed(HtmlTableStyle),
      OutputVariable("Zone Mean Air Temperature"),
      OutputVariable("Zone Total Internal Latent Gain Energy"),
      OutputVariable("Zone Mean Radiant Temperature"),
      OutputVariable("Zone Air Relative Humidity"),
      OutputVariable("Zone Windows Total Transmitted Solar Radiation Energy"),
      Fixed(AllSummaryReports) ]

  /** The six sections in order, with the zone's volume given. */
  function Document(d: Dimensions, m: Materials, volume: real): seq<IdfObject> {
    HeaderObjects + [Zone(DefaultZoneName, d.height, volume)] + SurfaceObjects(d, m)
    + CatalogObjects + ScheduleObjects + ReportObjects
  }

  /** `generateIdf` as written: the zone's Volume field is `width * length`. */
  function GenerateIdf(d: Dimensions, northAngle: real, m: Materials): seq<IdfObject> {
    Document(d, m, FloorArea(d))
  }

  /** `generateIdf` with the zone's Volume field `width * length * height`, the volume of the box. */
  function GenerateIdfCorrected(d: Dimensions, northAngle: real, m: Materials): seq<IdfObject> {
    Document(d, m, Volume(d))
  }

  /** The comment lines opening the five sections; the first is the banner. */
  const SectionHeadings: seq<string> :=
    [ Banner, SurfacesComment, CatalogComment,
      "! PROGRAMAÇÕES (SCHEDULES) BÁSICAS\n\n", "! OUTRAS DEFINIÇÕES DE SIMULAÇÃO\n\n" ]

  /** The document cut into its printed sections: header and zone, surfaces, catalog, schedules, reports. */
  function Sections(doc: seq<IdfObject>): (r: seq<seq<IdfObject>>)
    requires |doc| >= 37
    ensures |r| == 5
  {
    [doc[..7], doc[7..17], doc[17..34], doc[34..37], doc[37..]]
  }

  /** The text of a 45-object document: the banner, then each section with its comment line. */
  function SectionedText(doc: seq<IdfObject>, formatNum: real -> string): string
    requires |doc| >= 37
  {
    Layout(SectionHeadings, Sections(doc), formatNum)
  }

  /** The text `generateIdf` returns. */
  function GenerateIdfText(d: Dimensions, northAngle: real, m: Materials, formatNum: real -> string): string {
    SectionedText(GenerateIdf(d, northAngle, m), formatNum)
  }

  // ---------------------------------------------------------------------------
  // Properties

  /** The construction at position `k` of the catalog defines its name. */
  lemma CatalogConstructionDefined(k: nat, name: string)
    requires k < |CatalogObjects| && CatalogObjects[k].Construction? && CatalogObjects[k].name == name
    ensures Defines(CatalogObjects, ConstructionClass, name)
  {
    DefinesMember(CatalogObjects, CatalogObjects[k], ConstructionClass, name);
  }

  /** Every construction the wall mapping can return is defined in the catalog. */
  lemma CatalogDefinesWallConstruction(tag: string)
    ensures Defines(CatalogObjects, ConstructionClass, WallConstruction(tag))
  {
    var k := if tag == "brick" then 1 else if tag == "concrete" then 2 else if tag == "wood" then 4 else 5;
    CatalogConstructionDefined(k, WallConstruction(tag));
  }

  /** Every construction the window mapping can return is defined in the catalog. */
  lemma CatalogDefinesWindowConstruction(tag: string)
    ensures Defines(CatalogObjects, ConstructionClass, WindowConstruction(tag))
  {
    var k := if tag == "single_clear" then 6 else if tag == "double_clear" then 7 else 8;
    CatalogConstructionDefined(k, WindowConstruction(tag));
  }

  /** Every construction the floor mapping can return is defined in the catalog. */
  lemma CatalogDefinesFloorConstruction(tag: string)
    ensures Defines(CatalogObjects, ConstructionClass, FloorConstruction(tag))
  {
    var k := if tag == "tile" then 11 else if tag == "carpet" then 12 else 13;
    CatalogConstructionDefined(k, FloorConstruction(tag));
  }

  /** The layers the catalog's constructions list. */
  lemma CatalogLayerNames(o: IdfObject, k: int)
    requires o in CatalogObjects && o.Construction? && 0 <= k < |o.layers|
    ensures o.layers[k] in ["Concrete", "WoodLayer", "Clear 3mm", "Air 6mm", "Low-e 6mm", "FloorTile", "FloorCarpet"]
  {
  }

  /** Each of those layers is defined in the catalog. */
  lemma CatalogDefinesLayer(n: string)
    requires n in ["Concrete", "WoodLayer", "Clear 3mm", "Air 6mm", "Low-e 6mm", "FloorTile", "FloorCarpet"]
    ensures DefinesLayer(CatalogObjects, n)
  {
    var c := CatalogObjects;
    if n == "Concrete" {
      assert ConcreteMaterial in c;
    } else if n == "WoodLayer" {
      assert WoodLayer in c;
    } else if n == "Clear 3mm" {
      assert Clear3mmGlazing in c;
    } else if n == "Air 6mm" {
      assert Air6mmGas in c;
    } else if n == "Low-e 6mm" {
      assert LowE6mmGlazing in c;
    } else if n == "FloorTile" {
      assert FloorTile in c;
    } else {
      assert FloorCarpet in c;
    }
  }

  /** Every layer a catalog construction lists is a material, glazing or gas of the catalog. */
  lemma CatalogLayersResolved()
    ensures LayersResolved(CatalogObjects)
  {
    forall o, k | o in CatalogObjects && o.Construction? && 0 <= k < |o.layers|
      ensures DefinesLayer(CatalogObjects, o.layers[k])
    {
      CatalogLayerNames(o, k);
      CatalogDefinesLayer(o.layers[k]);
    }
  }

  /** Header, zone, catalog, schedules and reports hold no surface or window. */
  lemma OtherSectionsHoldNoSurface(d: Dimensions, volume: real)
    ensures forall k :: 0 <= k < |HeaderObjects + [Zone(DefaultZoneName, d.height, volume)]| ==>
              !IsSurface((HeaderObjects + [Zone(DefaultZoneName, d.height, volume)])[k])
    ensures forall k :: 0 <= k < |CatalogObjects + ScheduleObjects + ReportObjects| ==>
              !IsSurface((CatalogObjects + ScheduleObjects + ReportObjects)[k])
  {
  }

  /** A surface section between two parts without surfaces is the document's list of surfaces. */
  lemma SurfacesOfMiddle(head: seq<IdfObject>, s: seq<IdfObject>, tail: seq<IdfObject>)
    requires forall k :: 0 <= k < |head| ==> !IsSurface(head[k])
    requires forall k :: 0 <= k < |s| ==> IsSurface(s[k])
    requires forall k :: 0 <= k < |tail| ==> !IsSurface(tail[k])
    ensures SurfacesOf(head + s + tail) == s
  {
    SurfacesOfNone(head);
    SurfacesOfNone(tail);
    SurfacesOfAllSurfaces(s);
    SurfacesOfAppend(head, s);
    SurfacesOfAppend(head + s, tail);
  }

  /** The document's surfaces and windows are exactly the surface section, in order. */
  lemma DocumentSurfaces(d: Dimensions, m: Materials, volume: real)
    ensures SurfacesOf(Document(d, m, volume)) == SurfaceObjects(d, m)
  {
    var head := HeaderObjects + [Zone(DefaultZoneName, d.height, volume)];
    var tail := CatalogObjects + ScheduleObjects + ReportObjects;
    OtherSectionsHoldNoSurface(d, volume);
    SurfacesOfMiddle(head, SurfaceObjects(d, m), tail);
    assert Document(d, m, volume) == head + SurfaceObjects(d, m) + tail;
  }

  /** The surface section: Floor, Ceiling, then a wall and its window for North, South, East and West. */
  lemma SurfaceSectionNames(d: Dimensions, m: Materials)
    ensures var s := SurfaceObjects(d, m);
            && |s| == 10
            && NameOf(s[0]) == Some("Floor") && NameOf(s[1]) == Some("Ceiling")
            && NameOf(s[2]) == Some("Wall North") && NameOf(s[3]) == Some("Window North")
            && NameOf(s[4]) == Some("Wall South") && NameOf(s[5]) == Some("Window South")
            && NameOf(s[6]) == Some("Wall East") && NameOf(s[7]) == Some("Window East")
            && NameOf(s[8]) == Some("Wall West") && NameOf(s[9]) == Some("Window West")
  {
    assert WallName(North) == "Wall North" && WindowName(North) == "Window North";
    assert WallName(South) == "Wall South" && WindowName(South) == "Window South";
    assert WallName(East) == "Wall East" && WindowName(East) == "Window East";
    assert WallName(West) == "Wall West" && WindowName(West) == "Window West";
  }

  /** The windows are the odd positions from 3 on, each right after the wall it names as its base surface. */
  lemma SurfaceSectionWindows(d: Dimensions, m: Materials)
    ensures var s := SurfaceObjects(d, m);
            && (forall k :: 0 <= k < |s| ==> (s[k].Fenestration? <==> k >= 3 && k % 2 == 1))
            && (forall k :: 1 <= k < |s| && s[k].Fenestration? ==>
                  s[k - 1].Surface? && NameOf(s[k - 1]) == Some(s[k].baseSurface))
  {
    var s := SurfaceObjects(d, m);
    forall k | 0 <= k < |s|
      ensures s[k].Fenestration? <==> k >= 3 && k % 2 == 1
    {
      SurfaceAtKind(d, m, k);
    }
    forall k | 1 <= k < |s| && s[k].Fenestration?
      ensures s[k - 1].Surface? && NameOf(s[k - 1]) == Some(s[k].baseSurface)
    {
      WindowFollowsItsWall(d, m, k);
    }
  }

  /** `generateIdf` emits the surface section's ten surfaces and windows, in that order, and no others. */
  lemma GenerateIdfSurfaceOrder(d: Dimensions, northAngle: real, m: Materials)
    ensures SurfacesOf(GenerateIdf(d, northAngle, m)) == SurfaceObjects(d, m)
  {
    DocumentSurfaces(d, m, FloorArea(d));
  }

  /** Every surface and window of the surface section declares four vertices and lists exactly four. */
  lemma SurfaceSectionVertexCounts(d: Dimensions, m: Materials)
    ensures var s := SurfaceObjects(d, m);
            forall k :: 0 <= k < |s| ==>
              DeclaredVertexCount(s[k]) == Some("4") && ListedVertices(s[k]).Some? && |ListedVertices(s[k]).value| == 4
  {
    var s := SurfaceObjects(d, m);
    forall k | 0 <= k < |s|
      ensures DeclaredVertexCount(s[k]) == Some("4") && ListedVertices(s[k]).Some? && |ListedVertices(s[k]).value| == 4
    {
      assert IsSurface(s[k]) && |s[k].vertices| == 4;
      if s[k].Surface? {
        SurfaceReadBack(s[k]);
      } else {
        FenestrationReadBack(s[k]);
      }
    }
  }

  /** Floor and Ceiling carry the floor construction, walls the wall construction, windows the window construction. */
  lemma SurfaceConstruction(d: Dimensions, m: Materials, k: nat)
    requires k < 10
    ensures IsSurface(SurfaceAt(d, m, k))
    ensures SurfaceAt(d, m, k).construction ==
              if k < 2 then FloorConstruction(m.surface)
              else if k % 2 == 0 then WallConstruction(m.wall)
              else WindowConstruction(m.window)
  {
  }

  /** A surface or window of the document is one of the surface section's. */
  lemma DocumentSurfaceIsInSection(d: Dimensions, m: Materials, volume: real, o: IdfObject)
    requires o in Document(d, m, volume) && IsSurface(o)
    ensures exists k :: 0 <= k < 10 && o == SurfaceAt(d, m, k)
  {
    DocumentSurfaces(d, m, volume);
    SurfacesOfMembers(Document(d, m, volume), o);
    var s := SurfaceObjects(d, m);
    var k :| 0 <= k < |s| && s[k] == o;
    assert o == SurfaceAt(d, m, k);
  }

  /** Every construction a surface or window of the document names is defined by the document. */
  lemma DocumentConstructionsResolved(d: Dimensions, m: Materials, volume: real)
    ensures ConstructionsResolved(Document(d, m, volume))
  {
    var doc := Document(d, m, volume);
    assert forall o :: o in CatalogObjects ==> o in doc;
    CatalogDefinesWallConstruction(m.wall);
    CatalogDefinesWindowConstruction(m.window);
    CatalogDefinesFloorConstruction(m.surface);
    DefinesWithin(CatalogObjects, doc, ConstructionClass, WallConstruction(m.wall));
    DefinesWithin(CatalogObjects, doc, ConstructionClass, WindowConstruction(m.window));
    DefinesWithin(CatalogObjects, doc, ConstructionClass, FloorConstruction(m.surface));
    forall o | o in doc && ConstructionOf(o).Some?
      ensures Defines(doc, ConstructionClass, ConstructionOf(o).value)
    {
      DocumentSurfaceIsInSection(d, m, volume, o);
      var k :| 0 <= k < 10 && o == SurfaceAt(d, m, k);
      SurfaceConstruction(d, m, k);
    }
  }

  /** Only the catalog holds constructions. */
  lemma DocumentConstructionIsInCatalog(d: Dimensions, m: Materials, volume: real, o: IdfObject)
    requires o in Document(d, m, volume) && o.Construction?
    ensures o in CatalogObjects
  {
    if o in SurfaceObjects(d, m) {
      var k :| 0 <= k < 10 && SurfaceObjects(d, m)[k] == o;
      SurfaceConstruction(d, m, k);
    }
  }

  /** Every layer a construction of the document lists is defined by the document. */
  lemma DocumentLayersResolved(d: Dimensions, m: Materials, volume: real)
    ensures LayersResolved(Document(d, m, volume))
  {
    var doc := Document(d, m, volume);
    assert forall o :: o in CatalogObjects ==> o in doc;
    CatalogLayersResolved();
    forall o, k | o in doc && o.Construction? && 0 <= k < |o.layers|
      ensures DefinesLayer(doc, o.layers[k])
    {
      DocumentConstructionIsInCatalog(d, m, volume, o);
      DefinesLayerWithin(CatalogObjects, doc, o.layers[k]);
    }
  }

  /** Header, zone, catalog, schedules and reports refer to no zone. */
  lemma OtherSectionsReferToNoZone(d: Dimensions, volume: real, o: IdfObject)
    requires o in HeaderObjects + [Zone(DefaultZoneName, d.height, volume)] + CatalogObjects + ScheduleObjects + ReportObjects
    ensures ZoneOf(o).None?
  {
  }

  /** A surface of the section names a zone only when it names the default zone. */
  lemma SurfaceZone(d: Dimensions, m: Materials, k: nat)
    requires k < 10
    ensures ZoneOf(SurfaceAt(d, m, k)).Some? ==> ZoneOf(SurfaceAt(d, m, k)) == Some(DefaultZoneName)
  {
  }

  /** Every zone the document refers to is the default zone. */
  lemma DocumentZoneOf(d: Dimensions, m: Materials, volume: real, o: IdfObject)
    requires o in Document(d, m, volume) && ZoneOf(o).Some?
    ensures ZoneOf(o) == Some(DefaultZoneName)
  {
    var head := HeaderObjects + [Zone(DefaultZoneName, d.height, volume)];
    var tail := CatalogObjects + ScheduleObjects + ReportObjects;
    assert Document(d, m, volume) == head + SurfaceObjects(d, m) + tail;
    if o in SurfaceObjects(d, m) {
      var k :| 0 <= k < 10 && SurfaceObjects(d, m)[k] == o;
      SurfaceZone(d, m, k);
    } else {
      OtherSectionsReferToNoZone(d, volume, o);
      assert false;
    }
  }

  /** Every surface names the document's one zone. */
  lemma DocumentZonesResolved(d: Dimensions, m: Materials, volume: real)
    ensures ZonesResolved(Document(d, m, volume))
  {
    var head := HeaderObjects + [Zone(DefaultZoneName, d.height, volume)];
    var doc := Document(d, m, volume);
    assert doc == head + SurfaceObjects(d, m) + CatalogObjects + ScheduleObjects + ReportObjects;
    assert head[6] in doc;
    assert Defines(doc, ZoneClass, DefaultZoneName);
    forall o | o in doc && ZoneOf(o).Some?
      ensures Defines(doc, ZoneClass, ZoneOf(o).value)
    {
      DocumentZoneOf(d, m, volume, o);
    }
  }

  /** Surface `k` is a window exactly at the odd positions from 3 on. */
  lemma SurfaceAtKind(d: Dimensions, m: Materials, k: nat)
    requires k < 10
    ensures SurfaceAt(d, m, k).Fenestration? <==> k >= 3 && k % 2 == 1
  {
  }

  /** A window of the surface section comes right after the wall it names as its base surface. */
  lemma WindowFollowsItsWall(d: Dimensions, m: Materials, k: nat)
    requires k < 10 && SurfaceAt(d, m, k).Fenestration?
    ensures 1 <= k && SurfaceAt(d, m, k - 1).Surface?
    ensures NameOf(SurfaceAt(d, m, k - 1)) == Some(SurfaceAt(d, m, k).baseSurface)
  {
    assert k >= 3 && k % 2 == 1 && (k - 1 - 2) / 2 == (k - 2) / 2;
  }

  /** The document holds every object of its surface section. */
  lemma SectionInDocument(d: Dimensions, m: Materials, volume: real, o: IdfObject)
    requires o in SurfaceObjects(d, m)
    ensures o in Document(d, m, volume)
  {
    var head := HeaderObjects + [Zone(DefaultZoneName, d.height, volume)];
    var tail := CatalogObjects + ScheduleObjects + ReportObjects;
    assert Document(d, m, volume) == head + SurfaceObjects(d, m) + tail;
  }

  /** A window of the surface section sits in the wall of its own orientation. */
  lemma SectionWindowWall(d: Dimensions, m: Materials, k: nat) returns (o: Orientation)
    requires k < 10 && SurfaceAt(d, m, k).Fenestration?
    ensures SurfaceAt(d, m, k).baseSurface == WallName(o)
  {
    assert k >= 2;
    o := Orientations[(k - 2) / 2];
  }

  /** The wall of the `i`-th orientation sits at position `2 + 2 i` of the surface section. */
  lemma WallAt(d: Dimensions, m: Materials, i: nat) returns (k: nat)
    requires i < 4
    ensures k == 2 + 2 * i && k < 10
    ensures SurfaceAt(d, m, k) == WallSurface(d, Orientations[i], WallConstruction(m.wall), DefaultZoneName)
  {
    k := 2 + 2 * i;
    assert (k - 2) / 2 == i && k % 2 == 0;
  }

  /** The document holds the wall of every orientation. */
  lemma DocumentHoldsWall(d: Dimensions, m: Materials, volume: real, o: Orientation)
    ensures WallSurface(d, o, WallConstruction(m.wall), DefaultZoneName) in Document(d, m, volume)
  {
    var i := match o case North => 0 case South => 1 case East => 2 case West => 3;
    assert Orientations[i] == o;
    var k := WallAt(d, m, i);
    assert SurfaceObjects(d, m)[k] == WallSurface(d, o, WallConstruction(m.wall), DefaultZoneName);
    SectionInDocument(d, m, volume, SurfaceObjects(d, m)[k]);
  }

  /** The document defines the wall of every orientation. */
  lemma DocumentDefinesWall(d: Dimensions, m: Materials, volume: real, o: Orientation)
    ensures Defines(Document(d, m, volume), SurfaceClass, WallName(o))
  {
    DocumentHoldsWall(d, m, volume, o);
    DefinesMember(Document(d, m, volume), WallSurface(d, o, WallConstruction(m.wall), DefaultZoneName),
                  SurfaceClass, WallName(o));
  }

  /** The base surface a window of the document names is a wall of the document. */
  lemma WindowBaseSurfaceDefined(d: Dimensions, m: Materials, volume: real, w: IdfObject)
    requires w in Document(d, m, volume) && w.Fenestration?
    ensures Defines(Document(d, m, volume), SurfaceClass, w.baseSurface)
  {
    DocumentSurfaceIsInSection(d, m, volume, w);
    var k :| 0 <= k < 10 && w == SurfaceAt(d, m, k);
    var o := SectionWindowWall(d, m, k);
    DocumentDefinesWall(d, m, volume, o);
  }

  /** Every window's base surface is a wall of the document. */
  lemma DocumentBaseSurfacesResolved(d: Dimensions, m: Materials, volume: real)
    ensures BaseSurfacesResolved(Document(d, m, volume))
  {
    var doc := Document(d, m, volume);
    forall o | o in doc && o.Fenestration?
      ensures Defines(doc, SurfaceClass, o.baseSurface)
    {
      WindowBaseSurfaceDefined(d, m, volume, o);
    }
  }

  /**
   * In the document `generateIdf` writes, every construction, layer, zone and
   * base surface that is referred to is also defined, whatever the inputs.
   */
  lemma GenerateIdfReferencesResolved(d: Dimensions, northAngle: real, m: Materials)
    ensures var doc := GenerateIdf(d, northAngle, m);
            ConstructionsResolved(doc) && LayersResolved(doc) && ZonesResolved(doc) && BaseSurfacesResolved(doc)
  {
    var v := FloorArea(d);
    DocumentConstructionsResolved(d, m, v);
    DocumentLayersResolved(d, m, v);
    DocumentZonesResolved(d, m, v);
    DocumentBaseSurfacesResolved(d, m, v);
  }

  /** An object between parts that hold no object of its class is the only one of its class. */
  lemma CountOnlyObject(a: seq<IdfObject>, x: IdfObject, b: seq<IdfObject>, c: seq<IdfObject>)
    requires forall k :: 0 <= k < |a| ==> ClassOf(a[k]) != ClassOf(x)
    requires forall k :: 0 <= k < |b| ==> ClassOf(b[k]) != ClassOf(x)
    requires forall k :: 0 <= k < |c| ==> ClassOf(c[k]) != ClassOf(x)
    ensures CountClass(a + [x] + b + c, ClassOf(x)) == 1
  {
    var cls := ClassOf(x);
    assert CountClass([x], cls) == 1;
    NoneOfClass(a, cls);
    NoneOfClass(b, cls);
    NoneOfClass(c, cls);
    CountClassAppend(a, [x], cls);
    CountClassAppend(a + [x], b, cls);
    CountClassAppend(a + [x] + b, c, cls);
  }

  /** No section but the zone's holds a zone. */
  lemma OnlyOneZoneSection(d: Dimensions, m: Materials)
    ensures forall k :: 0 <= k < |HeaderObjects| ==> ClassOf(HeaderObjects[k]) != ZoneClass
    ensures forall k :: 0 <= k < |SurfaceObjects(d, m)| ==> ClassOf(SurfaceObjects(d, m)[k]) != ZoneClass
    ensures forall k :: 0 <= k < |CatalogObjects + ScheduleObjects + ReportObjects| ==>
              ClassOf((CatalogObjects + ScheduleObjects + ReportObjects)[k]) != ZoneClass
  {
  }

  /** The document holds exactly one zone, the seventh object, with the given ceiling height and volume. */
  lemma DocumentZone(d: Dimensions, m: Materials, volume: real)
    ensures var doc := Document(d, m, volume);
            && CountClass(doc, ZoneClass) == 1 && doc[6].Zone?
            && TextAt(Fields(doc[6]), 0) == Some(DefaultZoneName)
            && NumAt(Fields(doc[6]), 7) == Some(d.height) && NumAt(Fields(doc[6]), 8) == Some(volume)
  {
    var zone := Zone(DefaultZoneName, d.height, volume);
    var tail := CatalogObjects + ScheduleObjects + ReportObjects;
    assert Document(d, m, volume) == HeaderObjects + [zone] + SurfaceObjects(d, m) + tail;
    OnlyOneZoneSection(d, m);
    CountOnlyObject(HeaderObjects, zone, SurfaceObjects(d, m), tail);
    ZoneReadBack(zone);
  }

  /**
   * `generateIdf` as written declares one zone, "Zone Default", with Ceiling
   * Height `height` and Volume `width * length`: the floor area, not the
   * volume of the box.
   */
  lemma GenerateIdfZone(d: Dimensions, northAngle: real, m: Materials)
    ensures var doc := GenerateIdf(d, northAngle, m);
            && CountClass(doc, ZoneClass) == 1 && doc[6].Zone?
            && TextAt(Fields(doc[6]), 0) == Some(DefaultZoneName)
            && NumAt(Fields(doc[6]), 7) == Some(d.height) && NumAt(Fields(doc[6]), 8) == Some(FloorArea(d))
  {
    DocumentZone(d, m, FloorArea(d));
  }

  /** With the editor's initial 5 x 4 x 2.5 zone, `generateIdf` declares a volume of 20 for a 50 cubic-metre box. */
  lemma GenerateIdfVolumeCounterexample(m: Materials)
    ensures var d := InitialDimensions;
            NumAt(Fields(GenerateIdf(d, 0.0, m)[6]), 8) == Some(20.0) && Volume(d) == 50.0
  {
    GenerateIdfZone(InitialDimensions, 0.0, m);
  }

  /** The corrected generator declares the zone's Volume as `width * length * height`. */
  lemma GenerateIdfCorrectedZone(d: Dimensions, northAngle: real, m: Materials)
    ensures var doc := GenerateIdfCorrected(d, northAngle, m);
            && CountClass(doc, ZoneClass) == 1 && doc[6].Zone?
            && NumAt(Fields(doc[6]), 7) == Some(d.height)
            && NumAt(Fields(doc[6]), 8) == Some(Volume(d))
  {
    DocumentZone(d, m, Volume(d));
  }

  /** `a` and `b` have the same length and agree at every position but `i`. */
  ghost predicate SameExceptAt(a: seq<IdfObject>, b: seq<IdfObject>, i: nat) {
    |a| == |b| && forall k :: 0 <= k < |a| && k != i ==> a[k] == b[k]
  }

  /** Replacing one object of a sequence leaves every other position alone. */
  lemma ReplaceOne(a: seq<IdfObject>, x: IdfObject, y: IdfObject, b: seq<IdfObject>)
    ensures SameExceptAt(a + [x] + b, a + [y] + b, |a|)
  {
  }

  /** Two documents built with different volumes differ in the zone object only. */
  lemma DocumentsDifferInZoneOnly(d: Dimensions, m: Materials, v1: real, v2: real)
    ensures SameExceptAt(Document(d, m, v1), Document(d, m, v2), 6)
  {
    var tail := SurfaceObjects(d, m) + CatalogObjects + ScheduleObjects + ReportObjects;
    var z1 := Zone(DefaultZoneName, d.height, v1);
    var z2 := Zone(DefaultZoneName, d.height, v2);
    assert Document(d, m, v1) == HeaderObjects + [z1] + tail;
    assert Document(d, m, v2) == HeaderObjects + [z2] + tail;
    ReplaceOne(HeaderObjects, z1, z2, tail);
  }

  /** The corrected document differs from the written one in the zone's volume only. */
  lemma GenerateIdfCorrectedChangesOnlyVolume(d: Dimensions, northAngle: real, m: Materials)
    ensures SameExceptAt(GenerateIdf(d, northAngle, m), GenerateIdfCorrected(d, northAngle, m), 6)
  {
    DocumentsDifferInZoneOnly(d, m, FloorArea(d), Volume(d));
  }

  /** `northAngle` changes nothing in the document. */
  lemma GenerateIdfIgnoresNorthAngle(d: Dimensions, a1: real, a2: real, m: Materials)
    ensures GenerateIdf(d, a1, m) == GenerateIdf(d, a2, m)
  {
  }

  /** The Building object is the literal "Tropos3D Building" with North Axis `0.0`. */
  lemma GenerateIdfBuilding(d: Dimensions, northAngle: real, m: Materials)
    ensures var b := GenerateIdf(d, northAngle, m)[1];
            b.Building? && TextAt(Fields(b), 0) == Some("Tropos3D Building") && TextAt(Fields(b), 1) == Some("0.0")
  {
    var doc := GenerateIdf(d, northAngle, m);
    assert doc[1] == HeaderObjects[1];
  }

  /**
   * The shape of surface `k`, read back from its fields: the floor lies on the
   * ground at height 0 and the ceiling at the zone's height, both the full
   * width-by-length rectangle; each wall lies in its side's plane and runs from
   * the ceiling down to the floor; each window lies just inside its wall, from
   * 1 m to 2.1 m high.
   */
  lemma SurfaceSectionGeometry(d: Dimensions, m: Materials, k: nat)
    requires k < 10 && d.width > 0.0 && d.length > 0.0
    ensures var s := SurfaceAt(d, m, k);
            IsSurface(s) && ListedVertices(s) == Some(s.vertices)
    ensures var s := SurfaceAt(d, m, k);
            k == 0 ==> s.Surface? && s.boundary == "Ground" && s.sun == "NoSun" && s.wind == "NoWind"
                       && OnPlane(s.vertices, Y, 0.0) && FourCorners(s.vertices, X, Z, d.width / 2.0, d.length / 2.0)
    ensures var s := SurfaceAt(d, m, k);
            k == 1 ==> s.Surface? && s.boundary == "Outdoors" && s.sun == "SunExposed" && s.wind == "WindExposed"
                       && OnPlane(s.vertices, Y, d.height) && FourCorners(s.vertices, X, Z, d.width / 2.0, d.length / 2.0)
    ensures var s := SurfaceAt(d, m, k);
            k >= 2 && k % 2 == 0 ==>
              var o := Orientations[(k - 2) / 2];
              s.Surface? && s.boundary == "Outdoors"
              && OnPlane(s.vertices, NormalAxis(o), WallOffset(d, o)) && Heights(s.vertices) == [d.height, 0.0, 0.0, d.height]
    ensures var s := SurfaceAt(d, m, k);
            k >= 2 && k % 2 == 1 ==>
              var o := Orientations[(k - 2) / 2];
              s.Fenestration? && s.baseSurface == WallName(o)
              && OnPlane(s.vertices, NormalAxis(o), WindowOffset(d, o))
              && Heights(s.vertices) == [WindowTop, WindowBottom, WindowBottom, WindowTop]
  {
    var s := SurfaceAt(d, m, k);
    if k < 2 {
      FloorAndCeilingGeometry(d);
      SurfaceReadBack(s);
    } else if k % 2 == 0 {
      WallGeometry(d, Orientations[(k - 2) / 2]);
      SurfaceReadBack(s);
    } else {
      WindowGeometry(d, Orientations[(k - 2) / 2]);
      FenestrationReadBack(s);
    }
  }

  /** Every object of a document lies in one of its sections. */
  lemma SectionsCover(doc: seq<IdfObject>, o: IdfObject) returns (i: nat)
    requires |doc| >= 37 && o in doc
    ensures i < 5 && o in Sections(doc)[i]
  {
    var k :| 0 <= k < |doc| && doc[k] == o;
    var lo, hi;
    i, lo, hi := if k < 7 then 0 else if k < 17 then 1 else if k < 34 then 2 else if k < 37 then 3 else 4,
                 if k < 7 then 0 else if k < 17 then 7 else if k < 34 then 17 else if k < 37 then 34 else 37,
                 if k < 7 then 7 else if k < 17 then 17 else if k < 34 then 34 else if k < 37 then 37 else |doc|;
    assert Sections(doc)[i] == doc[lo..hi];
    assert doc[lo..hi][k - lo] == o;
  }

  /** The sectioned text holds the printed form of every object of the document. */
  lemma SectionedTextHoldsEveryObject(doc: seq<IdfObject>, formatNum: real -> string, o: IdfObject)
    requires |doc| >= 37 && o in doc
    ensures Text.Contains(SectionedText(doc, formatNum), RenderObject(o, formatNum))
  {
    var i := SectionsCover(doc, o);
    LayoutHoldsSection(SectionHeadings, Sections(doc), formatNum, i, o);
  }

  /** The printed document holds the printed form of every object of `generateIdf`'s document. */
  lemma GenerateIdfTextHoldsEveryObject(d: Dimensions, northAngle: real, m: Materials,
                                        formatNum: real -> string, o: IdfObject)
    requires o in GenerateIdf(d, northAngle, m)
    ensures Text.Contains(GenerateIdfText(d, northAngle, m, formatNum), RenderObject(o, formatNum))
  {
    SectionedTextHoldsEveryObject(GenerateIdf(d, northAngle, m), formatNum, o);
  }
}
