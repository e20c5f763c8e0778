/** Positions and the clamping helper the controllers use. Unity's `float`
    components are modelled as `real`, so no rounding is represented. */
module Geometry {

  /** A world-space position, as held by `transform.position`. */
  datatype Vector3 = Vector3(x: real, y: real, z: real)

  /** `Mathf.Clamp(value, min, max)`: a value below `min` becomes `min`,
      otherwise a value above `max` becomes `max`. */
  function Clamp(value: real, min: real, max: real): (r: real)
    ensures min <= max ==> min <= r <= max
    ensures min <= value <= max ==> r == value
    ensures value < min ==> r == min
    ensures min <= value && max < value ==> r == max
  {
    if value < min then min
    else if value > max then max
    else value
  }

  /** Clamping a clamped value changes nothing, as long as the interval is
      not empty; with `min > max` a value below `min` is first moved to `min`
      and then, on a second clamp, to `max`. */
  lemma ClampIdempotent(value: real, min: real, max: real)
    requires min <= max
    ensures Clamp(Clamp(value, min, max), min, max) == Clamp(value, min, max)
  {
  }
}
