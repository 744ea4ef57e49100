# Tropos3D model core in Dafny

Tropos3D is a browser editor for a single rectangular thermal zone. You set
its width, length and height, the north angle, the wall, window and floor
materials, and the window and surface properties. The editor then writes an
EnergyPlus input file (IDF). This project models the parts of Tropos3D that
decide what that file and the editor's state contain:

- `generateIdf` (`src/services/idfGenerator.ts`). The model is `IdfGenerator` (on top of `Idf` and `IdfBlocks`).
  - It writes the document as a sequence of IDF objects: header, zone, ten surfaces and windows, the construction and material catalog, schedules and reports.
  - The text is each object rendered after its section comment.
- `generateBasicIdf` (`src/store-simple.ts`). The model is `BasicIdf`.
  - It writes header and zone, then an ideal-loads HVAC block or a natural-ventilation object, then floor, ceiling, the north wall and its window, then a small catalog.
  - The text closes with a comment holding the serialised materials.
- The simple store (`src/store-simple.ts`, `SimpleStore.Store`) and the full store (`src/store.ts`, `AppStore.Store`).
  - Each is a class whose methods overwrite its fields, as the store's `set()` calls do.
  - Each `State` datatype is a snapshot of every field, and every action is specified by the snapshot it leaves.
  - The JSON models that `exportToJson` serialises are values, and importing them is a function.
- The handlers and input guards of the basic properties panel (`src/components/ui/BasicPropertiesPanel.tsx`). The model is `PropertiesPanel`.
  - Dimension, north angle, material and weather-file edits.
  - Surface edits, including the cascade that disables a wall's window.
  - Window toggles and the window width, height and sill guards.
  - Overhang edits.
  - Each handler is a method on the simple store, specified by a function of the state before it.
- `parseCsvResults` (`src/services/energyPlusService.ts`). The model is `CsvResults`.
  - The header row fixes the temperature, humidity and time columns.
  - A loop collects one reading per data row that has the temperature column.
  - At most the first 100 readings are kept.

`Text` holds the JavaScript string operations these use: `trim`, `split`, `join`, `toLowerCase`, `includes`, `endsWith`, `replace` and decimal printing. `Wrappers` holds `Option`. `ModelTypes` holds the shared records and JavaScript's `x || d` on numbers (`OrElse`).

Opaque operations are parameters:
- `formatNum` stands for `toFixed(3)`.
- `stringify` stands for `JSON.stringify`.
- `parse` stands for `parseFloat`, with `None` for NaN.

The store's browser side effects (downloads, alerts, console output) are not part of the model.

## Model

| member | source | states |
|---|---|---|
| ModelTypes.OrElse | src/store-simple.ts:172-173 | `x \|\| d` on a number: a missing value or 0 gives the fallback; any other value is kept |
| Text.Trim | src/services/energyPlusService.ts:198-199 | the result is no longer than the input and neither starts nor ends with white space |
| Text.TrimRemovesOnlySpace | src/services/energyPlusService.ts:198-199 | the trimmed text is one contiguous piece of the input, with only white space before and after it |
| Text.Split | src/services/energyPlusService.ts:198-199 | splitting gives at least one piece, and no piece contains the separator |
| Text.JoinSplit | src/services/energyPlusService.ts:198-199 | joining the pieces of a split with the separator gives back the text |
| Text.SplitJoin | src/services/energyPlusService.ts:198-199 | splitting the join of separator-free pieces gives back the pieces |
| Text.ToLower | src/services/energyPlusService.ts:201-213 | lower-casing keeps the length and maps each character on its own |
| Text.ToLowerIdempotent | src/services/energyPlusService.ts:201-213 | lower-casing twice is lower-casing once |
| Text.ContainsIffOccurs | src/services/energyPlusService.ts:201-213 | `includes` holds exactly when the substring occurs at some position |
| Text.ReplaceFirst | src/components/ui/BasicPropertiesPanel.tsx:214-216 | a text starting with the pattern has that prefix replaced; a text without the pattern is unchanged |
| Text.ReplaceFirstOccurrence | src/components/ui/BasicPropertiesPanel.tsx:214-216 | wherever the first occurrence lies, exactly that occurrence is replaced and the text before and after it is kept |
| Text.NatToString | src/services/energyPlusService.ts:223 | a row number prints as a non-empty string of decimal digits without a leading zero |
| Text.DecimalValueOfNatToString | src/services/energyPlusService.ts:223 | reading the printed digits back gives the number |
| Idf.DecodeVertexFields | src/services/idfGenerator.ts:172-176 | the vertex fields of a surface decode back to exactly its vertices |
| Idf.SurfaceReadBack | src/services/idfGenerator.ts:162-176 | a building surface's fields give back its name, construction and zone; the declared vertex count is the number of listed vertices, which read back exactly |
| Idf.FenestrationReadBack | src/services/idfGenerator.ts:210-223 | a window's fields give back its name, construction and base surface; the vertex count and vertices read back exactly |
| Idf.ConstructionReadBack | src/services/idfGenerator.ts:356-360 | a construction's fields are its name followed by its layers, in order |
| Idf.LayerNameReadBack | src/services/idfGenerator.ts:320-326 | a material, glazing or gas declares its name in its first field |
| Idf.ZoneReadBack | src/services/idfGenerator.ts:149-158 | a zone's fields give back its name, ceiling height and volume |
| Idf.EquipmentConnectionsZoneField | src/store-simple.ts:258-259 | the equipment connections name their zone in the first field |
| Idf.VentilationReadBack | src/store-simple.ts:302-307 | a ventilation object names its zone and carries its design flow rate |
| Idf.SurfacesOfMembers | src/services/idfGenerator.ts:160-316 | the surfaces of a document are exactly its building surfaces and windows |
| Idf.SurfacesOfAppend | src/services/idfGenerator.ts:160-316 | the surfaces of two joined parts are those of the first part followed by those of the second |
| Idf.CountClassZero | src/services/idfGenerator.ts:149-158 | a class counts zero objects exactly when no object of the document has that class |
| Idf.CountClassAppend | src/services/idfGenerator.ts:149-158 | counting over two joined parts adds the counts of the parts |
| Idf.RenderAppend | src/services/idfGenerator.ts:60-500 | the text of two joined parts is the text of the first followed by that of the second |
| Idf.LayoutHoldsSection | src/services/idfGenerator.ts:60-500 | the printed text holds every object of every section, rendered |
| IdfBlocks.SurfaceNamesDistinct | src/services/idfGenerator.ts:194-307 | different orientations give different wall names and different window names, and no wall shares a name with a window |
| IdfBlocks.WallOffset | src/services/idfGenerator.ts:205-301 | the North wall lies at z = -length/2, South at z = length/2, East at x = width/2, West at x = -width/2 |
| IdfBlocks.FloorAndCeilingGeometry | src/services/idfGenerator.ts:162-192 | the floor lies at y = 0 and the ceiling at y = height, each with corners at (±width/2, ±length/2) |
| IdfBlocks.WallGeometry | src/services/idfGenerator.ts:194-301 | each wall has four vertices on its plane, with heights height, 0, 0, height, spanning the wall's full width symmetrically |
| IdfBlocks.WindowGeometry | src/services/idfGenerator.ts:210-316 | each window has four vertices on a plane 0.01 inside its wall, spans y from 1 to 2.1, and is 1.5 wide, centred |
| IdfBlocks.WindowWithinWall | src/services/idfGenerator.ts:210-316 | a window lies within its wall's outline exactly when the wall is at least 1.5 wide and the zone at least 2.1 high |
| IdfGenerator.WallConstructionTable | src/services/idfGenerator.ts:49-51 | brick, concrete and wood map to their own wall constructions; exactly the other tags map to PARTITION |
| IdfGenerator.WindowConstructionTable | src/services/idfGenerator.ts:53-54 | single_clear and double_clear map to their own constructions; exactly the other tags map to LOW-E-WINDOW |
| IdfGenerator.FloorConstructionTable | src/services/idfGenerator.ts:56-57 | tile and carpet map to their own constructions; exactly the other tags map to SLAB-ON-GRADE |
| IdfGenerator.CatalogDefinesWallConstruction | src/services/idfGenerator.ts:328-350 | whatever the wall tag, the catalog defines the construction it maps to |
| IdfGenerator.CatalogDefinesWindowConstruction | src/services/idfGenerator.ts:352-364 | whatever the window tag, the catalog defines the construction it maps to |
| IdfGenerator.CatalogDefinesFloorConstruction | src/services/idfGenerator.ts:382-392 | whatever the surface tag, the catalog defines the floor construction it maps to |
| IdfGenerator.CatalogLayersResolved | src/services/idfGenerator.ts:320-429 | every layer of every catalog construction is defined as a material, glazing or gas |
| IdfGenerator.DocumentSurfaces | src/services/idfGenerator.ts:160-316 | the document's surfaces and windows are exactly the ten of the surface section, in order |
| IdfGenerator.GenerateIdfSurfaceOrder | src/services/idfGenerator.ts:160-316 | `generateIdf` emits its surfaces and windows in section order, and no others |
| IdfGenerator.SurfaceSectionNames | src/services/idfGenerator.ts:162-307 | the order is Floor, Ceiling, then "Wall North", "Window North", and likewise for South, East and West |
| IdfGenerator.SurfaceSectionWindows | src/services/idfGenerator.ts:210-307 | windows sit exactly at the odd positions from 3 on, and each names the wall emitted right before it as its base surface |
| IdfGenerator.SurfaceSectionVertexCounts | src/services/idfGenerator.ts:162-316 | every surface and window declares 4 vertices and lists exactly 4 |
| IdfGenerator.SurfaceConstruction | src/services/idfGenerator.ts:162-306 | floor and ceiling carry the floor construction, walls the wall construction, windows the window construction |
| IdfGenerator.SurfaceSectionGeometry | src/services/idfGenerator.ts:162-316 | boundary, sun and wind exposure of floor and ceiling, the plane and heights of each wall and window, and the window's base wall |
| IdfGenerator.DocumentConstructionsResolved | src/services/idfGenerator.ts:162-392 | every construction a surface or window uses is defined in the document |
| IdfGenerator.DocumentConstructionIsInCatalog | src/services/idfGenerator.ts:320-392 | every construction of the document is one of the catalog |
| IdfGenerator.DocumentLayersResolved | src/services/idfGenerator.ts:320-429 | every layer a construction names is defined in the document |
| IdfGenerator.DocumentZonesResolved | src/services/idfGenerator.ts:149-298 | every zone a surface names is a zone of the document |
| IdfGenerator.DocumentBaseSurfacesResolved | src/services/idfGenerator.ts:210-307 | every window's base surface is a building surface of the document |
| IdfGenerator.GenerateIdfReferencesResolved | src/services/idfGenerator.ts:15-503 | every construction, layer, zone and base surface `generateIdf` refers to is defined |
| IdfGenerator.GenerateIdfZone | src/services/idfGenerator.ts:149-158 | the document has exactly one zone, "Zone Default", with ceiling height = height and volume = width·length |
| IdfGenerator.GenerateIdfVolumeCounterexample | src/services/idfGenerator.ts:158 | for the initial 5 × 4 × 2.5 zone the written volume is 20 while the box holds 50 |
| IdfGenerator.GenerateIdfCorrectedZone | src/services/idfGenerator.ts:149-158 | with the volume corrected, the one zone's volume is width·length·height |
| IdfGenerator.GenerateIdfCorrectedChangesOnlyVolume | src/services/idfGenerator.ts:149-158 | the correction changes the zone object and nothing else |
| IdfGenerator.GenerateIdfIgnoresNorthAngle | src/services/idfGenerator.ts:15-21 | the document does not depend on the north angle |
| IdfGenerator.GenerateIdfBuilding | src/services/idfGenerator.ts:69-77 | the building is "Tropos3D Building" with North Axis the literal 0.0 |
| IdfGenerator.GenerateIdfTextHoldsEveryObject | src/services/idfGenerator.ts:60-500 | the returned text holds every object of the document, rendered |
| BasicIdf.JsRemBounds | src/store-simple.ts:214 | the remainder keeps the dividend's sign, stays below the divisor in size, and leaves smaller values unchanged |
| BasicIdf.NorthDegreesRange | src/store-simple.ts:214-230 | the printed north axis lies in [0, 360) for a non-negative angle and in (-360, 0] for a negative one |
| BasicIdf.NorthDegreesPeriodic | src/store-simple.ts:214 | a non-negative angle one full turn (2π) larger prints the same north axis |
| BasicIdf.NorthDegreesAcrossZero | src/store-simple.ts:214 | the remainder is not periodic across zero: an angle in (-2π, 0) prints a negative axis, exactly 360 below the one printed for the angle plus 2π |
| BasicIdf.GenerateBasicIdfIgnoresMaterialsAndWindows | src/store-simple.ts:205-437 | the objects do not depend on the materials or on the window records |
| BasicIdf.GenerateBasicIdfTextMaterialsInTrailerOnly | src/store-simple.ts:219-439 | two texts that differ only in materials or window records agree up to the closing comment, which holds the serialised materials |
| BasicIdf.HvacCount | src/store-simple.ts:256-329 | the HVAC block holds one of each ideal-loads object when conditioned and one ventilation object otherwise |
| BasicIdf.BasicDocumentHvacCount | src/store-simple.ts:256-329 | the same counts hold over the whole document |
| BasicIdf.BasicDocumentHvac | src/store-simple.ts:256-329 | a conditioned zone gets the three ideal-loads objects and no ventilation; any other zone gets one ventilation object and none of the three |
| BasicIdf.BasicDocumentVentilation | src/store-simple.ts:301-307 | the ventilation object names the zone, with design flow 2·width·length·height |
| BasicIdf.BasicDocumentHvacChain | src/store-simple.ts:258-276 | the connections name the zone and its equipment list, the list names the ideal loads, and both are defined |
| BasicIdf.BasicDocumentZone | src/store-simple.ts:245-254 | the one zone is named `zone.name`, with ceiling height = height and volume = width·length·height |
| BasicIdf.BasicDocumentBuilding | src/store-simple.ts:228-230 | the building carries `building.name` and the north axis in degrees |
| BasicIdf.BasicDocumentSurfaces | src/store-simple.ts:331-394 | the surfaces are floor, ceiling, north wall and north window, in that order |
| BasicIdf.GenerateBasicIdfSurfaceZones | src/store-simple.ts:333-379 | every surface names the zone "Zone Default", whatever the zone is called |
| BasicIdf.BasicWindowNorth | src/store-simple.ts:381-394 | the north window sits at z = -length/2 + 0.01, x = ±0.75, y from 1.0 to 2.1 |
| BasicIdf.BasicDocumentConstructionsResolved | src/store-simple.ts:396-436 | every construction a surface uses is defined |
| BasicIdf.BasicDocumentLayersResolved | src/store-simple.ts:396-436 | every layer a construction names is defined |
| BasicIdf.BasicDocumentBaseSurfacesResolved | src/store-simple.ts:381-394 | the window's base surface is a surface of the document |
| BasicIdf.BasicDocumentZoneReferences | src/store-simple.ts:245-379 | the zone references resolve exactly when the surfaces name the declared zone |
| BasicIdf.GenerateBasicIdfZonesResolvedIff | src/store-simple.ts:245-379 | as written, the zone references resolve exactly when the zone is named "Zone Default" |
| BasicIdf.GenerateBasicIdfInitialZoneUnresolved | src/store-simple.ts:333-337 | with the initial zone "Zona Padrão", the surfaces refer to a zone the file does not declare |
| BasicIdf.GenerateBasicIdfCorrectedResolved | src/store-simple.ts:245-436 | with surfaces in the declared zone, every zone, construction, layer and base-surface reference resolves |
| BasicIdf.GenerateBasicIdfTextHoldsEveryObject | src/store-simple.ts:219-439 | the returned text holds every object of the document, rendered |
| SimpleStore.Imported | src/store-simple.ts:167-181 | without `dimensions` nothing changes; otherwise dimensions, north angle (0 when missing or 0) and materials (initial when missing) are set, the selection is cleared, and nothing else changes |
| SimpleStore.ImportExportRoundTrip | src/store-simple.ts:146-176 | importing what was exported gives the state back with the selection cleared |
| SimpleStore.Reset | src/store-simple.ts:140-144 | dimensions, north angle and materials return to their initial values; every other field stays |
| SimpleStore.ResetIdempotent | src/store-simple.ts:140-144 | resetting twice is resetting once, and the initial state is already reset |
| SimpleStore.ResetThenImportKeepsRecords | src/store-simple.ts:140-176 | reset then import never touches window records, surface properties, building or zone |
| SimpleStore.Store.constructor | src/store-simple.ts:74-121 | the store starts in the initial state |
| SimpleStore.Store.SetSelectedElement | src/store-simple.ts:124 | only the selection changes |
| SimpleStore.Store.SetDimensions | src/store-simple.ts:125 | only the dimensions change |
| SimpleStore.Store.SetWindowDimensions | src/store-simple.ts:126-128 | exactly the entry for the id is replaced; every other entry and field stays |
| SimpleStore.Store.SetSurfaceProperties | src/store-simple.ts:129-131 | exactly the entry for the id is replaced; every other entry and field stays |
| SimpleStore.Store.SetNorthAngle | src/store-simple.ts:132 | only the north angle changes |
| SimpleStore.Store.SetMaterials | src/store-simple.ts:133 | only the materials change |
| SimpleStore.Store.SetBuildingName | src/store-simple.ts:134 | only the building's name changes; its weather file stays |
| SimpleStore.Store.SetBuildingEpwFile | src/store-simple.ts:135 | only the building's weather file changes |
| SimpleStore.Store.SetZoneName | src/store-simple.ts:136 | only the zone's name changes |
| SimpleStore.Store.SetZoneConditioned | src/store-simple.ts:137 | only the zone's conditioned flag changes |
| SimpleStore.Store.ResetModel | src/store-simple.ts:140-144 | the new state is the reset of the old |
| SimpleStore.Store.ImportFromJson | src/store-simple.ts:167-181 | the new state is the import into the old |
| SimpleStore.Store.ExportModel | src/store-simple.ts:146-153 | the exported model re-imports to the current dimensions, north angle and materials |
| SimpleStore.Store.ExportToIdf | src/store-simple.ts:183-197 | the text holds every object of the basic document, whose zone references resolve exactly when the zone is "Zone Default" |
| AppStore.ExportedZoneShape | src/store.ts:63-101 | the export holds one zone with the current dimensions, floor then ceiling in the surface material, and no walls |
| AppStore.ExportedFloorGeometry | src/store.ts:70-81 | the exported floor lies at y = 0 with corners (±width/2, ±length/2), the corners of the IDF floor |
| AppStore.ExportedCeilingGeometry | src/store.ts:82-93 | the exported ceiling lies at y = height with the same corners, those of the IDF ceiling |
| AppStore.FirstZoneDimensions | src/store.ts:117-121 | there are dimensions exactly when zones, the first zone and its dimensions are all present |
| AppStore.Imported | src/store.ts:115-139 | an invalid model changes nothing; a valid one sets the dimensions and the north angle (0 when falsy), resets the materials and clears the selection |
| AppStore.ImportExportRoundTrip | src/store.ts:63-133 | importing the export restores dimensions and north angle; the materials come back only when they were the initial ones |
| AppStore.ImportReadsFirstZoneOnly | src/store.ts:117-121 | zones after the first never affect the import |
| AppStore.Reset | src/store.ts:53-57 | dimensions, north angle and materials return to their initial values; the selection stays |
| AppStore.ResetExportImport | src/store.ts:53-133 | after a reset, the export re-imports to the initial state |
| AppStore.Store.constructor | src/store.ts:40-44 | the store starts in the initial state |
| AppStore.Store.SetSelectedElement | src/store.ts:47 | only the selection changes |
| AppStore.Store.SetDimensions | src/store.ts:48 | only the dimensions change |
| AppStore.Store.SetNorthAngle | src/store.ts:49 | only the north angle changes |
| AppStore.Store.SetMaterials | src/store.ts:50 | only the materials change |
| AppStore.Store.ResetModel | src/store.ts:53-57 | the new state is the reset of the old |
| AppStore.Store.ImportFromJson | src/store.ts:115-139 | the new state is the import into the old |
| AppStore.Store.ExportModel | src/store.ts:59-101 | the exported model is the one described above, and it re-imports to the current dimensions and north angle |
| AppStore.Store.ExportToIdf | src/store.ts:141-162 | the text holds every object `generateIdf` builds for the current state |
| PropertiesPanel.DimensionEdited | src/components/ui/BasicPropertiesPanel.tsx:133-141 | a positive parsed value replaces exactly the named dimension; NaN or a value ≤ 0 changes nothing |
| PropertiesPanel.DimensionEditKeepsPositive | src/components/ui/BasicPropertiesPanel.tsx:133-141 | dimension edits keep all three dimensions positive |
| PropertiesPanel.HandleDimensionChange | src/components/ui/BasicPropertiesPanel.tsx:133-141 | the store's dimensions become the edited ones, and nothing else changes |
| PropertiesPanel.TypedNorthAngleReadBack | src/components/ui/BasicPropertiesPanel.tsx:143-148 | an angle typed in degrees, strictly between -360 and 360, is written back as that angle in the basic IDF |
| PropertiesPanel.HandleNorthAngleChange | src/components/ui/BasicPropertiesPanel.tsx:143-148 | a number sets the north angle in radians; NaN changes nothing |
| PropertiesPanel.MaterialEdited | src/components/ui/BasicPropertiesPanel.tsx:150-156 | exactly the named material changes |
| PropertiesPanel.HandleMaterialChange | src/components/ui/BasicPropertiesPanel.tsx:150-156 | the store's materials become the edited ones, and nothing else changes |
| PropertiesPanel.HandleFileChange | src/components/ui/BasicPropertiesPanel.tsx:158-162 | a file whose name ends in ".epw" becomes the building's weather file; anything else changes nothing |
| PropertiesPanel.WallWindowIds | src/components/ui/BasicPropertiesPanel.tsx:214-216 | `wall-N` maps to `window-N` and back |
| PropertiesPanel.MaxWindowWidth | src/components/ui/BasicPropertiesPanel.tsx:219-230 | width for wall-1 and wall-2, length for wall-3 and wall-4, the smaller of the two for any other id |
| PropertiesPanel.MaxWindowWidthIsWallSpan | src/components/ui/BasicPropertiesPanel.tsx:219-230 | each wall's maximum window width is the span of that wall in the IDF geometry |
| PropertiesPanel.MaxWindowWidthAgrees | src/components/ui/BasicPropertiesPanel.tsx:233-236 | a window's maximum width is that of its wall |
| PropertiesPanel.SurfaceEdited | src/components/ui/BasicPropertiesPanel.tsx:195-201 | exactly the named surface property changes |
| PropertiesPanel.FloorAndCeilingNeverCascade | src/components/ui/BasicPropertiesPanel.tsx:203-210 | editing floor or ceiling never touches a window |
| PropertiesPanel.AdiabaticWallDisablesItsWindow | src/components/ui/BasicPropertiesPanel.tsx:203-210 | making `wall-N` adiabatic disables `window-N` and keeps its other fields and every other window |
| PropertiesPanel.OtherSurfaceEditsKeepWindows | src/components/ui/BasicPropertiesPanel.tsx:203-210 | no other surface edit changes the windows |
| PropertiesPanel.HandleSurfacePropertyChange | src/components/ui/BasicPropertiesPanel.tsx:190-211 | an unknown surface changes nothing; otherwise the one property and the cascade apply, and nothing else changes |
| PropertiesPanel.WindowToggled | src/components/ui/BasicPropertiesPanel.tsx:239-247 | `enabled` is set; width, height and sill keep a non-zero value and otherwise become 1.5, 1.1 and 1.0 |
| PropertiesPanel.ToggleTwice | src/components/ui/BasicPropertiesPanel.tsx:239-247 | toggling twice is toggling once to the second value |
| PropertiesPanel.ToggleFillsStandardWindow | src/components/ui/BasicPropertiesPanel.tsx:239-247 | toggling an empty record or the standard window gives the standard window |
| PropertiesPanel.HandleWindowEnabledChange | src/components/ui/BasicPropertiesPanel.tsx:239-247 | exactly that window's record becomes the toggled one |
| PropertiesPanel.AcceptedWindowInputFits | src/components/ui/BasicPropertiesPanel.tsx:499-555 | an accepted height or sill edit leaves sill + height ≤ zone height; an accepted width is positive and within the wall's maximum |
| PropertiesPanel.WindowInputKeepsFits | src/components/ui/BasicPropertiesPanel.tsx:499-555 | window edits keep every window's sill + height within the zone height |
| PropertiesPanel.HandleWindowInput | src/components/ui/BasicPropertiesPanel.tsx:499-555 | an accepted value replaces exactly one field of one window record; anything else changes nothing |
| PropertiesPanel.HandleWallWindowInput | src/components/ui/BasicPropertiesPanel.tsx:499-555 | the wall section edits the wall's window, bounded by the wall's maximum width |
| PropertiesPanel.HandleWindowSectionInput | src/components/ui/BasicPropertiesPanel.tsx:656-712 | the window section edits the window, bounded by its wall's maximum width |
| PropertiesPanel.ZeroSillHeightRefused | src/components/ui/BasicPropertiesPanel.tsx:521-549 | a window whose sill was set to 0 is checked as if the sill were 1.0, so a height that fits is refused |
| PropertiesPanel.CorrectedHeightGuardExact | src/components/ui/BasicPropertiesPanel.tsx:521-528 | the corrected height guard accepts exactly the positive heights that keep the window within the zone |
| PropertiesPanel.OverhangEdited | src/components/ui/BasicPropertiesPanel.tsx:250-273 | exactly the edited overhang field changes |
| PropertiesPanel.OverhangEditsKeepValid | src/components/ui/BasicPropertiesPanel.tsx:560-630 | the default overhang is valid, and toggles and accepted depth and extension edits keep an overhang valid |
| PropertiesPanel.OverhangLastEditWins | src/components/ui/BasicPropertiesPanel.tsx:250-273 | two edits of the same field leave the second value |
| PropertiesPanel.OverhangStore.SetOverhangProperties | src/components/ui/BasicPropertiesPanel.tsx:272 | exactly the entry for the window is replaced |
| PropertiesPanel.HandleOverhangPropertyChange | src/components/ui/BasicPropertiesPanel.tsx:250-273 | the window's overhang, or the default one, has one field replaced |
| PropertiesPanel.HandleOverhangToggle | src/components/ui/BasicPropertiesPanel.tsx:560-567 | the wall's window has its overhang enabled or disabled, and all overhangs stay valid |
| PropertiesPanel.HandleOverhangInput | src/components/ui/BasicPropertiesPanel.tsx:576-630 | a depth in [0.1, 2.0] or an extension ≥ 0 is applied; anything else changes nothing; all overhangs stay valid |
| CsvResults.LongerKeywordsRedundant | src/services/energyPlusService.ts:201-209 | the longer keywords add nothing: a header names a temperature or humidity column exactly when it contains "temperature" or "humidity" |
| CsvResults.FindIndex | src/services/energyPlusService.ts:201-214 | the result is the first header naming the column, or -1 when none does |
| CsvResults.Number | src/services/energyPlusService.ts:224-228 | a parsed non-zero number is kept; a missing field or NaN gives 0 |
| CsvResults.RowReading | src/services/energyPlusService.ts:219-232 | a row gives a reading exactly when it has the temperature column, with the temperature field as a number (0 for NaN), a humidity exactly when the header has one, and the time field or "Hora i" |
| CsvResults.FirstHundred | src/services/energyPlusService.ts:235 | all readings when there are at most 100, otherwise exactly the first 100, in order |
| CsvResults.AtMostOneReadingPerRow | src/services/energyPlusService.ts:218-232 | the header row gives none and no data row gives more than one |
| CsvResults.NoTemperatureNoReadings | src/services/energyPlusService.ts:201-221 | without a temperature column there are no readings |
| CsvResults.HumidityIffColumn | src/services/energyPlusService.ts:227-229 | every reading has a humidity exactly when the header has a humidity column |
| CsvResults.EveryRowRead | src/services/energyPlusService.ts:218-232 | when every data row has the temperature column, row k+1 gives reading k, labelled "Hora k+1" without a time column |
| CsvResults.HourLabelsDistinct | src/services/energyPlusService.ts:223 | different rows get different "Hora" labels |
| CsvResults.ReadLines | src/services/energyPlusService.ts:216-233 | the loop collects the readings of the data rows, in order |
| CsvResults.ParseCsvResults | src/services/energyPlusService.ts:196-240 | the result is the first 100 readings: never more than 100, never more than the data rows, and none without a temperature column |

## Left out

- Text layout: the column padding and `!-` comments of the IDF text are not modelled. Each object renders as its class name and its fields, one per line, with field notes where the model keeps them.
- `toFixed(3)` and floating point: numbers are reals, and printing them is an opaque `formatNum`.
- `parseFloat`: it is an opaque function that gives `None` for NaN.
- `JSON.stringify`: it is an opaque function.
- π: it is a fixed real constant.
- Lower-casing maps only ASCII letters. Unicode case folding is not modelled.
- Browser side effects: the anchor-click downloads of `exportToJson` and `exportToIdf`, `alert`, `console` output, the `FileReader` read of the weather file and the location parsing it triggers, and `runSimulation`.
- The download file names are not modelled (`model.json`, `model.idf`, and the building name with white space replaced).
- `windowDimensions` and the weather file appear in the store but not in either generator's output, so the generators take and ignore them.
- store.ts calls `generateIdf` with seven arguments. `src/services/idfGenerator.ts` takes three and ignores the rest, so `AppStore.Store.ExportToIdf` passes three.
- The panel takes `overhangProperties` and `setOverhangProperties` from `src/store-simple.ts`, which defines neither, so as written both are `undefined`. Reading `overhangProperties[…]` throws a TypeError in the handler (src/components/ui/BasicPropertiesPanel.tsx:257) and in the overhang checkbox (line 562), which renders once the selected wall's window is enabled (line 482). `PropertiesPanel.OverhangStore` models the intended store, a keyed map of overhang records, not that failure.
- The typed JSON shapes of the full store's model are reduced to the fields `importFromJson` reads or `exportToJson` writes. Each vertex is a record, not a three-element array.
- The panel's dimension key is one of width, length or height. Any other key is not modelled.
- The weather file is kept as its name. The file object is not modelled.
- `parseCsvResults` has a `try`/`catch`, but nothing in its body throws once `lines[0]` always exists, so the error path is not modelled.
- IdfGenerator.GenerateIdfTextHoldsEveryObject and BasicIdf.GenerateBasicIdfTextHoldsEveryObject state that the text contains every object. They do not state the exact text; the order of the objects is stated on the object sequence instead.
- PropertiesPanel.HandleDimensionChange: a height edit is not checked against the windows, as in the source. Lowering the zone can leave a window's sill plus height above it. The window guards alone keep the fit.

## Findings

| source | as written | input that shows it | evidently intended | confidence | as-written member | corrected member |
|---|---|---|---|---|---|---|
| src/services/idfGenerator.ts:158 | the zone's Volume field is width·length | the initial 5 × 4 × 2.5 zone: Volume 20 m³, while the box holds 50 m³ | width·length·height, as the other generator writes at src/store-simple.ts:254 | high; not executed | IdfGenerator.GenerateIdfVolumeCounterexample | IdfGenerator.GenerateIdfCorrectedZone |
| src/store-simple.ts:337 | every surface names the zone "Zone Default", while the zone object is named `zone.name` | the initial zone "Zona Padrão": all four surfaces refer to a zone the file does not declare | the surfaces name `zone.name` | high; not executed | BasicIdf.GenerateBasicIdfInitialZoneUnresolved | BasicIdf.GenerateBasicIdfCorrectedResolved |
| src/components/ui/BasicPropertiesPanel.tsx:523 | the height guard falls back to a 1.0 m sill whenever the sill is falsy, including a sill of 0 that the sill input accepts | zone 2.5 m, sill 0, height 2.0: the window fits but the edit is refused | fall back only when the sill is missing | medium; not executed | PropertiesPanel.ZeroSillHeightRefused | PropertiesPanel.CorrectedHeightGuardExact |

The models of `generateIdf`, `generateBasicIdf` and the panel's window guards follow the code as written. Each corrected definition (`IdfGenerator.GenerateIdfCorrected`, `BasicIdf.GenerateBasicIdfCorrected`, `PropertiesPanel.HeightAcceptedCorrected`) sits beside the as-written one with its intended property proved.
