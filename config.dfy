/**
 * The configuration records of the finder (src/utils.rs) and the pure
 * normalisation that turns the records read from the configuration file into
 * the `Formation` the search consumes.  Reading the file and parsing TOML are
 * not part of this model: `ConfigFile` stands for the parsed document, with
 * `None` for a bounds key that the file leaves out.
 */
module Config {
  import opened FixedWidth

  /** Whether a constraint is about a top/bottom face or a side face. */
  datatype InfoType = TopsAndBottoms | Sides

  /** One constraint as written in the configuration file. */
  datatype RawRotationInfo = RawRotationInfo(x: int32, y: int32, z: int32, rotation: int32, isSide: bool)

  /** One normalised constraint: an offset from the candidate origin and the rotation expected there. */
  datatype RotationInfo = RotationInfo(infoType: InfoType, x: int32, y: int32, z: int32, rotation: int32)

  /** A pair of bounds `(lower, upper)`, the `(i32, i32)` of the source. */
  datatype Bounds = Bounds(lo: int32, hi: int32)

  /** The parsed configuration document; a bounds key may be missing. */
  datatype ConfigFile = ConfigFile(
    sodium: bool,
    xBounds: Option<Bounds>,
    yBounds: Option<Bounds>,
    zBounds: Option<Bounds>,
    rotationInfo: seq<RawRotationInfo>)

  datatype Option<T> = None | Some(value: T)

  /** `RawFormation`: the document after serde has filled in the default bounds. */
  datatype RawFormation = RawFormation(
    sodium: bool,
    xBounds: Bounds,
    yBounds: Bounds,
    zBounds: Bounds,
    rotationInfo: seq<RawRotationInfo>)

  /** `Formation`: what the search runs on. */
  datatype Formation = Formation(
    sodium: bool,
    xMin: int32, xMax: int32,
    yMin: int32, yMax: int32,
    zMin: int32, zMax: int32,
    rotationInfo: seq<RotationInfo>)

  /** `x_bounds_default` */
  const X_BOUNDS_DEFAULT := Bounds(-10000, 10000)
  /** `y_bounds_default` */
  const Y_BOUNDS_DEFAULT := Bounds(10, 60)
  /** `z_bounds_default` */
  const Z_BOUNDS_DEFAULT := Bounds(-10000, 10000)

  function OrDefault(b: Option<Bounds>, default: Bounds): (r: Bounds)
    ensures b.Some? ==> r == b.value
    ensures b.None? ==> r == default
  {
    if b.Some? then b.value else default
  }

  /**
   * The `#[serde(default = ...)]` attributes of `RawFormation`: a bounds key
   * that is absent from the file takes its default; everything else is kept.
   */
  function ApplyDefaults(file: ConfigFile): (raw: RawFormation)
    ensures raw.sodium == file.sodium && raw.rotationInfo == file.rotationInfo
    ensures raw.xBounds == (if file.xBounds.Some? then file.xBounds.value else Bounds(-10000, 10000))
    ensures raw.yBounds == (if file.yBounds.Some? then file.yBounds.value else Bounds(10, 60))
    ensures raw.zBounds == (if file.zBounds.Some? then file.zBounds.value else Bounds(-10000, 10000))
  {
    RawFormation(
      file.sodium,
      OrDefault(file.xBounds, X_BOUNDS_DEFAULT),
      OrDefault(file.yBounds, Y_BOUNDS_DEFAULT),
      OrDefault(file.zBounds, Z_BOUNDS_DEFAULT),
      file.rotationInfo)
  }

  /**
   * The closure mapped over `rotation_info` in `get_config`: a side record
   * keeps its rotation modulo 2 under Rust's truncating `%`, a face record
   * keeps it as written, and the offsets are copied.
   */
  function Normalize(rot: RawRotationInfo): (info: RotationInfo)
    ensures info.x == rot.x && info.y == rot.y && info.z == rot.z
    ensures info.infoType == Sides <==> rot.isSide
    ensures !rot.isSide ==> info.rotation == rot.rotation
    ensures rot.isSide ==> -1 <= info.rotation <= 1 && (rot.rotation - info.rotation) % 2 == 0
    ensures rot.isSide && rot.rotation >= 0 ==> info.rotation >= 0
    ensures rot.isSide && rot.rotation < 0 ==> info.rotation <= 0
  {
    var (rotation, infoType) :=
      if rot.isSide then (Rem(rot.rotation, 2), Sides) else (rot.rotation, TopsAndBottoms);
    RotationInfo(infoType, rot.x, rot.y, rot.z, rotation)
  }

  /** A normalised side rotation is -1, 0 or 1; it is -1 exactly when the written rotation is negative and odd. */
  lemma SideRotationValues(rot: RawRotationInfo)
    requires rot.isSide
    ensures -1 <= Normalize(rot).rotation <= 1
    ensures Normalize(rot).rotation == -1 <==> rot.rotation < 0 && rot.rotation % 2 == 1
  {
  }

  /** The `map(...).collect()` over the raw list: same length, same order, each record normalised. */
  function NormalizeAll(raws: seq<RawRotationInfo>): (infos: seq<RotationInfo>)
    ensures |infos| == |raws|
    ensures forall i :: 0 <= i < |raws| ==> infos[i] == Normalize(raws[i])
  {
    if raws == [] then [] else [Normalize(raws[0])] + NormalizeAll(raws[1..])
  }

  /** `get_config` after the document is parsed: bounds become min/max fields, `sodium` is copied. */
  function GetConfig(raw: RawFormation): (f: Formation)
    ensures f.sodium == raw.sodium
    ensures f.xMin == raw.xBounds.lo && f.xMax == raw.xBounds.hi
    ensures f.yMin == raw.yBounds.lo && f.yMax == raw.yBounds.hi
    ensures f.zMin == raw.zBounds.lo && f.zMax == raw.zBounds.hi
    ensures |f.rotationInfo| == |raw.rotationInfo|
    ensures forall i :: 0 <= i < |raw.rotationInfo| ==> f.rotationInfo[i] == Normalize(raw.rotationInfo[i])
  {
    Formation(
      raw.sodium,
      raw.xBounds.lo, raw.xBounds.hi,
      raw.yBounds.lo, raw.yBounds.hi,
      raw.zBounds.lo, raw.zBounds.hi,
      NormalizeAll(raw.rotationInfo))
  }
}
