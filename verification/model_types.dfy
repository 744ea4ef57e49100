/**
 * The data shapes the editor's stores hold and the generators read: zone
 * dimensions, material tags, per-window and per-surface records, the building
 * and zone records, and the defaults both stores start from.
 */
module ModelTypes {
  import opened Wrappers

  /** Zone dimensions in metres; the zone is centred on the origin in plan, floor at y = 0. */
  datatype Dimensions = Dimensions(width: real, length: real, height: real)

  /** Material tags; the generators map them to construction names. */
  datatype Materials = Materials(wall: string, window: string, surface: string)

  datatype ElementKind = BuildingElement | ZoneElement | WallElement | WindowElement | SurfaceElement

  /** The element selected in the 3D view or the tree. */
  datatype Element = Element(kind: ElementKind, id: string, name: string)

  /**
   * A window record. Every field is optional because the records are open
   * JavaScript objects: the initial records carry no `enabled`, and a spread of
   * a missing record yields one that carries only the field just written.
   */
  datatype WindowDims = WindowDims(width: Option<real>, height: Option<real>,
                                   sillHeight: Option<real>, enabled: Option<bool>)

  /** The record a spread of a missing window entry starts from (`{...undefined}`). */
  const NoWindowFields := WindowDims(None, None, None, None)

  datatype WindExposure = WindExposed | NoWind
  datatype SunExposure = SunExposed | NoSun

  /** Boundary-condition settings of one surface. */
  datatype SurfaceProps = SurfaceProps(isAdiabatic: bool, windExposure: WindExposure, sunExposure: SunExposure)

  /** Shading overhang above one window. */
  datatype OverhangProps = OverhangProps(enabled: bool, depth: real, extensionLeft: real, extensionRight: real)

  datatype BuildingInfo = BuildingInfo(name: string, epwFile: Option<string>)

  /** `conditioned` false means the zone is naturally ventilated. */
  datatype ZoneInfo = ZoneInfo(name: string, conditioned: bool)

  /** The zone's floor area, `width * length`. */
  function FloorArea(d: Dimensions): real {
    d.width * d.length
  }

  /** The zone's volume, `width * length * height`. */
  function Volume(d: Dimensions): real {
    d.width * d.length * d.height
  }

  /** The starting dimensions of both stores. */
  const InitialDimensions := Dimensions(5.0, 4.0, 2.5)

  /** The starting material tags of both stores. */
  const InitialMaterials := Materials("brick", "single_clear", "tile")

  /**
   * JavaScript's `x || fallback` for a number that may be missing: `undefined`
   * and `0` (both falsy) give the fallback. Stored numbers are never `NaN`.
   */
  function OrElse(x: Option<real>, fallback: real): (r: real)
    ensures x.Some? && x.value != 0.0 ==> r == x.value
    ensures x.None? || x.value == 0.0 ==> r == fallback
  {
    if x.Some? && x.value != 0.0 then x.value else fallback
  }
}
