/**
 * The edit handlers of the basic properties panel
 * (src/components/ui/BasicPropertiesPanel.tsx). Each handler reads the value
 * typed into an input (`parseFloat`, with `None` for NaN), checks it against a
 * guard, and writes one entry into the simple store. The overhang records the
 * panel edits live in a keyed map of their own, `OverhangStore`, with the same
 * merge-one-entry semantics as the store's window records.
 */
module PropertiesPanel {
  import opened Wrappers
  import opened ModelTypes
  import Text
  import IdfBlocks
  import BasicIdf
  import SimpleStore

  // ---------------------------------------------------------------------------
  // Dimensions, north angle, materials, weather file

  datatype DimensionField = WidthField | LengthField | HeightField

  function DimensionOf(d: Dimensions, f: DimensionField): real {
    match f
    case WidthField => d.width
    case LengthField => d.length
    case HeightField => d.height
  }

  /** The dimensions after a typed value: a number above 0 replaces the named dimension, anything else is ignored. */
  function DimensionEdited(d: Dimensions, f: DimensionField, value: Option<real>): (r: Dimensions)
    ensures value.Some? && value.value > 0.0 ==>
              DimensionOf(r, f) == value.value && forall g :: g != f ==> DimensionOf(r, g) == DimensionOf(d, g)
    ensures value.None? || value.value <= 0.0 ==> r == d
  {
    if value.Some? && value.value > 0.0 then
      match f
      case WidthField => d.(width := value.value)
      case LengthField => d.(length := value.value)
      case HeightField => d.(height := value.value)
    else d
  }

  predicate PositiveDimensions(d: Dimensions) {
    d.width > 0.0 && d.length > 0.0 && d.height > 0.0
  }

  /** Dimension edits never make a dimension zero or negative. */
  lemma DimensionEditKeepsPositive(d: Dimensions, f: DimensionField, value: Option<real>)
    requires PositiveDimensions(d)
    ensures PositiveDimensions(DimensionEdited(d, f, value))
  {
    var r := DimensionEdited(d, f, value);
    assert forall g :: DimensionOf(r, g) > 0.0 by {
      forall g ensures DimensionOf(r, g) > 0.0 {
        assert DimensionOf(d, g) > 0.0;
      }
    }
    assert DimensionOf(r, WidthField) > 0.0 && DimensionOf(r, LengthField) > 0.0 && DimensionOf(r, HeightField) > 0.0;
  }

  method HandleDimensionChange(store: SimpleStore.Store, f: DimensionField, value: Option<real>)
    modifies store
    ensures store.Snapshot() == old(store.Snapshot()).(dimensions := DimensionEdited(old(store.dimensions), f, value))
  {
    if value.Some? && value.value > 0.0 {
      store.SetDimensions(DimensionEdited(store.dimensions, f, value));
    }
  }

  /** Degrees typed into the panel become the radians the store keeps. */
  function DegreesToRadians(degrees: real): real {
    degrees * (BasicIdf.Pi / 180.0)
  }

  /** The basic IDF prints back the degrees typed into the panel, for any angle strictly within a full turn. */
  lemma TypedNorthAngleReadBack(degrees: real)
    requires -360.0 < degrees < 360.0
    ensures BasicIdf.NorthDegrees(DegreesToRadians(degrees)) == degrees
  {
    var x := DegreesToRadians(degrees) * 180.0 / BasicIdf.Pi;
    assert x == degrees;
    BasicIdf.JsRemBounds(x, 360.0);
  }

  method HandleNorthAngleChange(store: SimpleStore.Store, degrees: Option<real>)
    modifies store
    ensures degrees.Some? ==> store.Snapshot() == old(store.Snapshot()).(northAngle := DegreesToRadians(degrees.value))
    ensures degrees.None? ==> store.Snapshot() == old(store.Snapshot())
  {
    if degrees.Some? {
      store.SetNorthAngle(DegreesToRadians(degrees.value));
    }
  }

  datatype MaterialField = WallMaterial | WindowMaterial | SurfaceMaterial

  function MaterialEdited(m: Materials, f: MaterialField, value: string): (r: Materials)
    ensures f == WallMaterial ==> r == Materials(value, m.window, m.surface)
    ensures f == WindowMaterial ==> r == Materials(m.wall, value, m.surface)
    ensures f == SurfaceMaterial ==> r == Materials(m.wall, m.window, value)
  {
    match f
    case WallMaterial => m.(wall := value)
    case WindowMaterial => m.(window := value)
    case SurfaceMaterial => m.(surface := value)
  }

  method HandleMaterialChange(store: SimpleStore.Store, f: MaterialField, value: string)
    modifies store
    ensures store.Snapshot() == old(store.Snapshot()).(materials := MaterialEdited(old(store.materials), f, value))
  {
    store.SetMaterials(MaterialEdited(store.materials, f, value));
  }

  /** A chosen file is kept as the weather file only when its name ends in ".epw"; no file or another name is refused. */
  method HandleFileChange(store: SimpleStore.Store, fileName: Option<string>)
    modifies store
    ensures fileName.Some? && Text.EndsWith(fileName.value, ".epw") ==>
              store.Snapshot() == old(store.Snapshot()).(building := BuildingInfo(old(store.building.name), fileName))
    ensures !(fileName.Some? && Text.EndsWith(fileName.value, ".epw")) ==> store.Snapshot() == old(store.Snapshot())
  {
    if fileName.Some? && Text.EndsWith(fileName.value, ".epw") {
      store.SetBuildingEpwFile(fileName);
    }
  }

  // ---------------------------------------------------------------------------
  // Wall and window identifiers

  const WallPrefix := "wall-"
  const WindowPrefix := "window-"

  /** `getWindowIdFromWallId`: the first "wall-" in the id becomes "window-". */
  function WindowIdOfWall(wallId: string): string {
    Text.ReplaceFirst(wallId, WallPrefix, WindowPrefix)
  }

  /** The reverse replacement, used to find a window's wall. */
  function WallIdOfWindow(windowId: string): string {
    Text.ReplaceFirst(windowId, WindowPrefix, WallPrefix)
  }

  /** "wall-N" names the wall of window "window-N", and back. */
  lemma WallWindowIds(n: string)
    ensures WindowIdOfWall(WallPrefix + n) == WindowPrefix + n
    ensures WallIdOfWindow(WindowPrefix + n) == WallPrefix + n
    ensures WallIdOfWindow(WindowIdOfWall(WallPrefix + n)) == WallPrefix + n
  {
    assert Text.StartsWith(WallPrefix + n, WallPrefix);
    assert (WallPrefix + n)[|WallPrefix|..] == n;
    assert Text.StartsWith(WindowPrefix + n, WindowPrefix);
    assert (WindowPrefix + n)[|WindowPrefix|..] == n;
  }

  /**
   * `getMaxWindowWidth`: the width of the room for walls 1 and 2, its length
   * for walls 3 and 4, and the smaller of the two for any other id.
   */
  function MaxWindowWidth(wallId: string, d: Dimensions): (r: real)
    ensures wallId == "wall-1" || wallId == "wall-2" ==> r == d.width
    ensures wallId == "wall-3" || wallId == "wall-4" ==> r == d.length
    ensures wallId !in {"wall-1", "wall-2", "wall-3", "wall-4"} ==> r <= d.width && r <= d.length && (r == d.width || r == d.length)
  {
    if wallId == "wall-1" || wallId == "wall-2" then d.width
    else if wallId == "wall-3" || wallId == "wall-4" then d.length
    else if d.width <= d.length then d.width else d.length
  }

  /**
   * The panel's walls 1 to 4 face South, North, East and West; the widest
   * window it allows on each is the span of that wall in the IDF geometry.
   */
  lemma MaxWindowWidthIsWallSpan(d: Dimensions)
    ensures MaxWindowWidth("wall-1", d) == IdfBlocks.WallSpan(d, IdfBlocks.South)
    ensures MaxWindowWidth("wall-2", d) == IdfBlocks.WallSpan(d, IdfBlocks.North)
    ensures MaxWindowWidth("wall-3", d) == IdfBlocks.WallSpan(d, IdfBlocks.East)
    ensures MaxWindowWidth("wall-4", d) == IdfBlocks.WallSpan(d, IdfBlocks.West)
  {
  }

  /** `getMaxWindowWidthFromWindowId`: the maximum of the window's wall. */
  function MaxWindowWidthOfWindow(windowId: string, d: Dimensions): real {
    MaxWindowWidth(WallIdOfWindow(windowId), d)
  }

  /** The window section and the wall section allow the same width for window N. */
  lemma MaxWindowWidthAgrees(n: string, d: Dimensions)
    ensures MaxWindowWidthOfWindow(WindowPrefix + n, d) == MaxWindowWidth(WallPrefix + n, d)
    ensures MaxWindowWidthOfWindow(WindowIdOfWall(WallPrefix + n), d) == MaxWindowWidth(WallPrefix + n, d)
  {
    WallWindowIds(n);
  }

  // ---------------------------------------------------------------------------
  // Surface properties and the adiabatic cascade

  datatype SurfaceEdit = SetAdiabatic(isAdiabatic: bool) | SetWindExposure(wind: WindExposure) | SetSunExposure(sun: SunExposure)

  /** The properties after one edit: exactly the edited field changes. */
  function SurfaceEdited(p: SurfaceProps, e: SurfaceEdit): (r: SurfaceProps)
    ensures e.SetAdiabatic? ==> r == SurfaceProps(e.isAdiabatic, p.windExposure, p.sunExposure)
    ensures e.SetWindExposure? ==> r == SurfaceProps(p.isAdiabatic, e.wind, p.sunExposure)
    ensures e.SetSunExposure? ==> r == SurfaceProps(p.isAdiabatic, p.windExposure, e.sun)
  {
    match e
    case SetAdiabatic(b) => p.(isAdiabatic := b)
    case SetWindExposure(w) => p.(windExposure := w)
    case SetSunExposure(s) => p.(sunExposure := s)
  }

  /** The window record an edit starts from: the stored one, or a record with no fields (the spread of `undefined`). */
  function CurrentWindow(windows: map<string, WindowDims>, windowId: string): WindowDims {
    if windowId in windows then windows[windowId] else NoWindowFields
  }

  /** Marking a wall adiabatic also disables its window. */
  predicate Cascades(surfaceId: string, e: SurfaceEdit) {
    e == SetAdiabatic(true) && Text.StartsWith(surfaceId, WallPrefix)
  }

  /** The window records after a surface edit. */
  function WindowsAfterSurfaceEdit(windows: map<string, WindowDims>, surfaceId: string, e: SurfaceEdit)
    : map<string, WindowDims>
  {
    if Cascades(surfaceId, e) then
      var windowId := WindowIdOfWall(surfaceId);
      windows[windowId := CurrentWindow(windows, windowId).(enabled := Some(false))]
    else windows
  }

  /** The floor and the ceiling never disable a window. */
  lemma FloorAndCeilingNeverCascade(e: SurfaceEdit, windows: map<string, WindowDims>)
    ensures WindowsAfterSurfaceEdit(windows, "floor", e) == windows
    ensures WindowsAfterSurfaceEdit(windows, "ceiling", e) == windows
  {
    assert !Text.StartsWith("floor", WallPrefix) by { assert "floor"[0] != WallPrefix[0]; }
    assert !Text.StartsWith("ceiling", WallPrefix) by { assert "ceiling"[0] != WallPrefix[0]; }
  }

  /**
   * Marking wall N adiabatic disables window N and keeps its width, height and
   * sill height; every other window record stays as it was.
   */
  lemma AdiabaticWallDisablesItsWindow(windows: map<string, WindowDims>, n: string)
    ensures var r := WindowsAfterSurfaceEdit(windows, WallPrefix + n, SetAdiabatic(true));
            var before := CurrentWindow(windows, WindowPrefix + n);
            && WindowPrefix + n in r
            && r[WindowPrefix + n] == WindowDims(before.width, before.height, before.sillHeight, Some(false))
            && r.Keys == windows.Keys + {WindowPrefix + n}
            && forall id :: id in windows && id != WindowPrefix + n ==> r[id] == windows[id]
  {
    WallWindowIds(n);
    assert Text.StartsWith(WallPrefix + n, WallPrefix);
  }

  /** Clearing the adiabatic flag, or changing exposure, leaves every window record alone. */
  lemma OtherSurfaceEditsKeepWindows(windows: map<string, WindowDims>, surfaceId: string, e: SurfaceEdit)
    requires e != SetAdiabatic(true)
    ensures WindowsAfterSurfaceEdit(windows, surfaceId, e) == windows
  {
  }

  /**
   * `handleSurfacePropertyChange`: nothing happens for a surface without
   * properties; otherwise one field of its properties changes, and marking a
   * wall adiabatic disables its window.
   */
  method HandleSurfacePropertyChange(store: SimpleStore.Store, surfaceId: string, e: SurfaceEdit)
    modifies store
    ensures surfaceId !in old(store.surfaceProperties) ==> store.Snapshot() == old(store.Snapshot())
    ensures surfaceId in old(store.surfaceProperties) ==>
              store.Snapshot() == old(store.Snapshot()).(
                surfaceProperties := old(store.surfaceProperties)[surfaceId := SurfaceEdited(old(store.surfaceProperties)[surfaceId], e)],
                windowDimensions := WindowsAfterSurfaceEdit(old(store.windowDimensions), surfaceId, e))
  {
    if surfaceId !in store.surfaceProperties {
      return;
    }
    store.SetSurfaceProperties(surfaceId, SurfaceEdited(store.surfaceProperties[surfaceId], e));
    if Cascades(surfaceId, e) {
      var windowId := WindowIdOfWall(surfaceId);
      store.SetWindowDimensions(windowId, CurrentWindow(store.windowDimensions, windowId).(enabled := Some(false)));
    }
  }

  // ---------------------------------------------------------------------------
  // Window records

  /** Fields that are missing or 0 count as unset and take the standard 1.5 x 1.1 m window at 1 m. */
  function WindowToggled(w: WindowDims, enabled: bool): (r: WindowDims)
    ensures r.enabled == Some(enabled)
    ensures r.width.Some? && r.height.Some? && r.sillHeight.Some?
    ensures r.width.value != 0.0 && r.height.value != 0.0 && r.sillHeight.value != 0.0
    ensures w.width.Some? && w.width.value != 0.0 ==> r.width == w.width
    ensures w.height.Some? && w.height.value != 0.0 ==> r.height == w.height
    ensures w.sillHeight.Some? && w.sillHeight.value != 0.0 ==> r.sillHeight == w.sillHeight
  {
    WindowDims(Some(OrElse(w.width, 1.5)), Some(OrElse(w.height, 1.1)), Some(OrElse(w.sillHeight, 1.0)), Some(enabled))
  }

  /** Toggling a window off and on again gives the record a single toggle would: no size is lost. */
  lemma ToggleTwice(w: WindowDims, first: bool, second: bool)
    ensures WindowToggled(WindowToggled(w, first), second) == WindowToggled(w, second)
  {
  }

  /** A record with no fields, such as one created by the adiabatic cascade, toggles into the standard window. */
  lemma ToggleFillsStandardWindow(enabled: bool)
    ensures WindowToggled(NoWindowFields, enabled) == SimpleStore.StandardWindow.(enabled := Some(enabled))
    ensures WindowToggled(SimpleStore.StandardWindow, enabled) == SimpleStore.StandardWindow.(enabled := Some(enabled))
  {
  }

  method HandleWindowEnabledChange(store: SimpleStore.Store, windowId: string, enabled: bool)
    modifies store
    ensures store.Snapshot() == old(store.Snapshot()).(
              windowDimensions := old(store.windowDimensions)[windowId := WindowToggled(CurrentWindow(old(store.windowDimensions), windowId), enabled)])
  {
    store.SetWindowDimensions(windowId, WindowToggled(CurrentWindow(store.windowDimensions, windowId), enabled));
  }

  datatype WindowInput = WidthInput | HeightInput | SillInput

  /** The window inputs' guards as written: a missing or zero sill counts as 1.0 m, a missing or zero height as 1.1 m. */
  predicate WindowInputAccepted(input: WindowInput, value: Option<real>, w: WindowDims, zoneHeight: real, maxWidth: real) {
    value.Some? &&
    match input
    case WidthInput => 0.0 < value.value <= maxWidth
    case HeightInput => value.value > 0.0 && value.value + OrElse(w.sillHeight, 1.0) <= zoneHeight
    case SillInput => value.value >= 0.0 && value.value + OrElse(w.height, 1.1) <= zoneHeight
  }

  function WindowInputApplied(w: WindowDims, input: WindowInput, v: real): WindowDims {
    match input
    case WidthInput => w.(width := Some(v))
    case HeightInput => w.(height := Some(v))
    case SillInput => w.(sillHeight := Some(v))
  }

  /** A window fits its wall vertically: sill plus height reach at most the zone's height, when both are set. */
  predicate FitsVertically(w: WindowDims, zoneHeight: real) {
    w.height.Some? && w.sillHeight.Some? ==> w.sillHeight.value + w.height.value <= zoneHeight
  }

  /** A window fits its wall horizontally: a set width is positive and at most the wall's span. */
  predicate FitsHorizontally(w: WindowDims, maxWidth: real) {
    w.width.Some? ==> 0.0 < w.width.value <= maxWidth
  }

  /**
   * Every accepted height or sill edit leaves the window fitting vertically,
   * whatever the record held before; an accepted width edit leaves it fitting
   * horizontally and keeps its vertical fit.
   */
  lemma AcceptedWindowInputFits(input: WindowInput, value: Option<real>, w: WindowDims, zoneHeight: real, maxWidth: real)
    requires WindowInputAccepted(input, value, w, zoneHeight, maxWidth)
    ensures input != WidthInput ==> FitsVertically(WindowInputApplied(w, input, value.value), zoneHeight)
    ensures input == WidthInput ==> FitsHorizontally(WindowInputApplied(w, input, value.value), maxWidth)
    ensures input == WidthInput && FitsVertically(w, zoneHeight) ==>
              FitsVertically(WindowInputApplied(w, input, value.value), zoneHeight)
  {
    var v := value.value;
    match input
    case WidthInput =>
    case HeightInput =>
      if w.sillHeight.Some? {
        assert OrElse(w.sillHeight, 1.0) >= w.sillHeight.value;
      }
    case SillInput =>
      if w.height.Some? {
        assert OrElse(w.height, 1.1) >= w.height.value;
      }
  }

  /** The window records after a typed value: an accepted one replaces one field of the record, anything else changes nothing. */
  function WindowsAfterInput(windows: map<string, WindowDims>, windowId: string, input: WindowInput, value: Option<real>,
                             zoneHeight: real, maxWidth: real): map<string, WindowDims>
  {
    var w := CurrentWindow(windows, windowId);
    if WindowInputAccepted(input, value, w, zoneHeight, maxWidth) then
      windows[windowId := WindowInputApplied(w, input, value.value)]
    else windows
  }

  /** Window edits keep every window record that fitted, fitting. */
  lemma WindowInputKeepsFits(windows: map<string, WindowDims>, windowId: string, input: WindowInput,
                             value: Option<real>, zoneHeight: real, maxWidth: real)
    requires forall id :: id in windows ==> FitsVertically(windows[id], zoneHeight)
    ensures var r := WindowsAfterInput(windows, windowId, input, value, zoneHeight, maxWidth);
            forall id :: id in r ==> FitsVertically(r[id], zoneHeight)
  {
    var w := CurrentWindow(windows, windowId);
    if WindowInputAccepted(input, value, w, zoneHeight, maxWidth) {
      assert FitsVertically(w, zoneHeight);
      AcceptedWindowInputFits(input, value, w, zoneHeight, maxWidth);
    }
  }

  /** The width, height and sill inputs of a window, given the largest width its wall allows. */
  method HandleWindowInput(store: SimpleStore.Store, windowId: string, input: WindowInput, value: Option<real>, maxWidth: real)
    modifies store
    ensures store.Snapshot() == old(store.Snapshot()).(
              windowDimensions := WindowsAfterInput(old(store.windowDimensions), windowId, input, value,
                                                    old(store.dimensions.height), maxWidth))
  {
    var w := CurrentWindow(store.windowDimensions, windowId);
    if WindowInputAccepted(input, value, w, store.dimensions.height, maxWidth) {
      store.SetWindowDimensions(windowId, WindowInputApplied(w, input, value.value));
    }
  }

  /** The window inputs of the wall section edit the wall's window, within the wall's maximum width. */
  method HandleWallWindowInput(store: SimpleStore.Store, wallId: string, input: WindowInput, value: Option<real>)
    modifies store
    ensures store.Snapshot() == old(store.Snapshot()).(
              windowDimensions := WindowsAfterInput(old(store.windowDimensions), WindowIdOfWall(wallId), input, value,
                                                    old(store.dimensions.height), MaxWindowWidth(wallId, old(store.dimensions))))
  {
    HandleWindowInput(store, WindowIdOfWall(wallId), input, value, MaxWindowWidth(wallId, store.dimensions));
  }

  /** The window inputs of the window section, within the maximum width of the window's wall. */
  method HandleWindowSectionInput(store: SimpleStore.Store, windowId: string, input: WindowInput, value: Option<real>)
    modifies store
    ensures store.Snapshot() == old(store.Snapshot()).(
              windowDimensions := WindowsAfterInput(old(store.windowDimensions), windowId, input, value,
                                                    old(store.dimensions.height), MaxWindowWidthOfWindow(windowId, old(store.dimensions))))
  {
    HandleWindowInput(store, windowId, input, value, MaxWindowWidthOfWindow(windowId, store.dimensions));
  }

  /**
   * The window height guard as evidently intended: a sill of 0 is a sill at
   * floor level, so only a missing sill falls back to 1.0 m.
   */
  predicate HeightAcceptedCorrected(value: Option<real>, w: WindowDims, zoneHeight: real) {
    value.Some? && value.value > 0.0 && value.value + w.sillHeight.GetOr(1.0) <= zoneHeight
  }

  /** With a sill set, the corrected guard accepts exactly the positive heights that keep the window fitting. */
  lemma CorrectedHeightGuardExact(value: Option<real>, w: WindowDims, zoneHeight: real)
    requires w.sillHeight.Some?
    ensures HeightAcceptedCorrected(value, w, zoneHeight)
        <==> value.Some? && value.value > 0.0 && FitsVertically(w.(height := value), zoneHeight)
  {
  }

  /**
   * As written, a window whose sill was set to 0 (which the sill input
   * accepts) is checked as if its sill were at 1.0 m: in a 2.5 m zone a 2.0 m
   * window on the floor fits but is refused.
   */
  lemma ZeroSillHeightRefused()
    ensures var w := WindowDims(Some(1.5), Some(1.1), Some(0.0), Some(true));
            && WindowInputAccepted(SillInput, Some(0.0), WindowDims(Some(1.5), Some(1.1), Some(1.0), Some(true)), 2.5, 5.0)
            && FitsVertically(w.(height := Some(2.0)), 2.5)
            && !WindowInputAccepted(HeightInput, Some(2.0), w, 2.5, 5.0)
            && HeightAcceptedCorrected(Some(2.0), w, 2.5)
  {
  }

  // ---------------------------------------------------------------------------
  // Overhangs

  datatype OverhangEdit = SetEnabled(enabled: bool) | SetDepth(depth: real)
                        | SetExtensionLeft(left: real) | SetExtensionRight(right: real)

  /** The record an overhang edit starts from when the window has none. */
  const DefaultOverhang: OverhangProps := OverhangProps(false, 0.5, 0.2, 0.2)

  function CurrentOverhang(overhangs: map<string, OverhangProps>, windowId: string): OverhangProps {
    if windowId in overhangs then overhangs[windowId] else DefaultOverhang
  }

  /** The overhang after one edit: exactly the edited field changes. */
  function OverhangEdited(p: OverhangProps, e: OverhangEdit): (r: OverhangProps)
    ensures e.SetEnabled? ==> r == OverhangProps(e.enabled, p.depth, p.extensionLeft, p.extensionRight)
    ensures e.SetDepth? ==> r == OverhangProps(p.enabled, e.depth, p.extensionLeft, p.extensionRight)
    ensures e.SetExtensionLeft? ==> r == OverhangProps(p.enabled, p.depth, e.left, p.extensionRight)
    ensures e.SetExtensionRight? ==> r == OverhangProps(p.enabled, p.depth, p.extensionLeft, e.right)
  {
    match e
    case SetEnabled(b) => p.(enabled := b)
    case SetDepth(x) => p.(depth := x)
    case SetExtensionLeft(x) => p.(extensionLeft := x)
    case SetExtensionRight(x) => p.(extensionRight := x)
  }

  /** An overhang 0.1 to 2.0 m deep, extending no less than 0 on either side. */
  predicate OverhangValid(p: OverhangProps) {
    0.1 <= p.depth <= 2.0 && p.extensionLeft >= 0.0 && p.extensionRight >= 0.0
  }

  datatype OverhangInput = DepthInput | ExtensionLeftInput | ExtensionRightInput

  /** The overhang inputs' guards: depth within [0.1, 2.0], extensions at least 0. */
  predicate OverhangInputAccepted(input: OverhangInput, value: Option<real>) {
    value.Some? &&
    match input
    case DepthInput => 0.1 <= value.value <= 2.0
    case ExtensionLeftInput => value.value >= 0.0
    case ExtensionRightInput => value.value >= 0.0
  }

  function EditOfInput(input: OverhangInput, v: real): OverhangEdit {
    match input
    case DepthInput => SetDepth(v)
    case ExtensionLeftInput => SetExtensionLeft(v)
    case ExtensionRightInput => SetExtensionRight(v)
  }

  /** The default overhang is valid, toggling keeps validity, and so does every accepted input. */
  lemma OverhangEditsKeepValid(p: OverhangProps, enabled: bool, input: OverhangInput, value: Option<real>)
    ensures OverhangValid(DefaultOverhang)
    ensures OverhangValid(p) ==> OverhangValid(OverhangEdited(p, SetEnabled(enabled)))
    ensures OverhangValid(p) && OverhangInputAccepted(input, value) ==>
              OverhangValid(OverhangEdited(p, EditOfInput(input, value.value)))
  {
  }

  /** A second edit of the same field overrides the first. */
  lemma OverhangLastEditWins(p: OverhangProps, input: OverhangInput, v1: real, v2: real)
    ensures OverhangEdited(OverhangEdited(p, EditOfInput(input, v1)), EditOfInput(input, v2))
         == OverhangEdited(p, EditOfInput(input, v2))
  {
  }

  /** The overhang records, keyed by window id, merged one entry at a time. */
  class OverhangStore {
    var overhangProperties: map<string, OverhangProps>

    constructor()
      ensures overhangProperties == map[]
    {
      overhangProperties := map[];
    }

    method SetOverhangProperties(windowId: string, props: OverhangProps)
      modifies this
      ensures overhangProperties == old(overhangProperties)[windowId := props]
    {
      overhangProperties := overhangProperties[windowId := props];
    }

    predicate AllValid()
      reads this
    {
      forall id :: id in overhangProperties ==> OverhangValid(overhangProperties[id])
    }
  }

  /** `handleOverhangPropertyChange`: one field of the window's overhang, or of the default one, changes. */
  method HandleOverhangPropertyChange(overhangs: OverhangStore, windowId: string, e: OverhangEdit)
    modifies overhangs
    ensures overhangs.overhangProperties
         == old(overhangs.overhangProperties)[windowId := OverhangEdited(CurrentOverhang(old(overhangs.overhangProperties), windowId), e)]
  {
    overhangs.SetOverhangProperties(windowId, OverhangEdited(CurrentOverhang(overhangs.overhangProperties, windowId), e));
  }

  /** The overhang checkbox of a wall's window. */
  method HandleOverhangToggle(overhangs: OverhangStore, wallId: string, enabled: bool)
    modifies overhangs
    ensures var windowId := WindowIdOfWall(wallId);
            (overhangs.overhangProperties
             == old(overhangs.overhangProperties)[windowId := OverhangEdited(CurrentOverhang(old(overhangs.overhangProperties), windowId), SetEnabled(enabled))])
    ensures old(overhangs.AllValid()) ==> overhangs.AllValid()
  {
    var windowId := WindowIdOfWall(wallId);
    OverhangEditsKeepValid(CurrentOverhang(overhangs.overhangProperties, windowId), enabled, DepthInput, None);
    HandleOverhangPropertyChange(overhangs, windowId, SetEnabled(enabled));
  }

  /** The depth and extension inputs of a wall's window overhang: an accepted value changes one field, any other nothing. */
  method HandleOverhangInput(overhangs: OverhangStore, wallId: string, input: OverhangInput, value: Option<real>)
    modifies overhangs
    ensures var windowId := WindowIdOfWall(wallId);
            OverhangInputAccepted(input, value) ==>
              (overhangs.overhangProperties
               == old(overhangs.overhangProperties)[windowId := OverhangEdited(CurrentOverhang(old(overhangs.overhangProperties), windowId), EditOfInput(input, value.value))])
    ensures !OverhangInputAccepted(input, value) ==> overhangs.overhangProperties == old(overhangs.overhangProperties)
    ensures old(overhangs.AllValid()) ==> overhangs.AllValid()
  {
    if OverhangInputAccepted(input, value) {
      var windowId := WindowIdOfWall(wallId);
      OverhangEditsKeepValid(CurrentOverhang(overhangs.overhangProperties, windowId), false, input, value);
      HandleOverhangPropertyChange(overhangs, windowId, EditOfInput(input, value.value));
    }
  }
}
