/**
  The ten-field adjustment vector (`AdjustmentConfig`) and the ranges that
  the `set*` operations of `ImageCraft` clamp each field into.
  Floats are modelled as reals; NaN is not modelled.
 */
module Config {

  datatype AdjustmentConfig = AdjustmentConfig(
    brightness: real,
    exposure: real,
    contrast: real,
    hue: real,
    saturation: real,
    highlight: real,
    shadows: real,
    grain: real,
    sharpness: real,
    vignette: real)

  /** The data-class defaults, which `reset` also restores. */
  const Zero := AdjustmentConfig(0.0, 0.0, 0.0, 0.0, 0.0, 0.0, 0.0, 0.0, 0.0, 0.0)

  /** Names one field of the vector, one per `set*` operation. */
  datatype Param =
    | Brightness | Contrast | Exposure | Hue | Saturation
    | Highlight | Shadows | Grain | Sharpness | Vignette

  function Lower(p: Param): real {
    match p
    case Exposure => -2.0
    case Grain | Sharpness | Vignette => 0.0
    case _ => -1.0
  }

  function Upper(p: Param): real {
    if p == Exposure then 2.0 else 1.0
  }

  /** Kotlin's `coerceIn(lo, hi)`. */
  function CoerceIn(v: real, lo: real, hi: real): (r: real)
    requires lo <= hi
    ensures lo <= r <= hi
    ensures lo <= v <= hi ==> r == v
    ensures v < lo ==> r == lo
    ensures v > hi ==> r == hi
  {
    if v < lo then lo else if v > hi then hi else v
  }

  function Get(c: AdjustmentConfig, p: Param): real {
    match p
    case Brightness => c.brightness
    case Contrast => c.contrast
    case Exposure => c.exposure
    case Hue => c.hue
    case Saturation => c.saturation
    case Highlight => c.highlight
    case Shadows => c.shadows
    case Grain => c.grain
    case Sharpness => c.sharpness
    case Vignette => c.vignette
  }

  /** The vector with field `p` replaced by `v`: exactly that field changes. */
  function With(c: AdjustmentConfig, p: Param, v: real): (d: AdjustmentConfig)
    ensures Get(d, p) == v
    ensures forall q :: q != p ==> Get(d, q) == Get(c, q)
  {
    match p
    case Brightness => c.(brightness := v)
    case Contrast => c.(contrast := v)
    case Exposure => c.(exposure := v)
    case Hue => c.(hue := v)
    case Saturation => c.(saturation := v)
    case Highlight => c.(highlight := v)
    case Shadows => c.(shadows := v)
    case Grain => c.(grain := v)
    case Sharpness => c.(sharpness := v)
    case Vignette => c.(vignette := v)
  }

  /** Every field lies within the range its setter clamps to. */
  predicate InRange(c: AdjustmentConfig) {
    forall p :: Lower(p) <= Get(c, p) <= Upper(p)
  }

  /** The vector a setter produces: field `p` holds `v` clamped into p's
      range, the other nine are untouched, and the range invariant is kept. */
  function Clamped(c: AdjustmentConfig, p: Param, v: real): (d: AdjustmentConfig)
    ensures Lower(p) <= Get(d, p) <= Upper(p)
    ensures Lower(p) <= v <= Upper(p) ==> Get(d, p) == v
    ensures forall q :: q != p ==> Get(d, q) == Get(c, q)
    ensures InRange(c) ==> InRange(d)
  {
    With(c, p, CoerceIn(v, Lower(p), Upper(p)))
  }

  /** All ten fields read 0 after a reset. */
  lemma ZeroFields()
    ensures forall p :: Get(Zero, p) == 0.0
    ensures InRange(Zero)
  {
  }
}
