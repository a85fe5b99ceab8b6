/**
 * `Content/Python/utils/unreal_conversions.py`: turning JSON lists into the
 * engine's vector, rotator and colour values. The engine values are kept as
 * their JSON components; only the arity checks and the alpha default are
 * modelled.
 */
module Conversions {
  import opened Wrappers
  import opened Json

  /** Three components, as `unreal.Vector` or `unreal.Rotator` receive them. */
  datatype Triple = Triple(x: Json, y: Json, z: Json)

  /** Four components, as `unreal.LinearColor` receives them. */
  datatype Rgba = Rgba(r: Json, g: Json, b: Json, a: Json)

  /** The alpha `to_unreal_color` uses when the list has only three components. */
  const DefaultAlpha := JNum("1.0")

  const VectorArity := "Vector data " + "must be a list " + "or tuple of 3 " + "floats"
  const RotatorArity := "Rotation data " + "must be a list " + "or tuple of 3 " + "floats"
  const ColorArity := "Color data must " + "be a list or " + "tuple of at " + "least 3 floats"

  /** `to_unreal_vector`: a list of exactly three components, else a `ValueError`. */
  function ToVector(data: Json): (r: Result<Triple, string>)
    ensures r.Success? <==> data.JArr? && |data.items| == 3
    ensures r.Failure? ==> r.error == VectorArity
    ensures r.Success? ==> [r.value.x, r.value.y, r.value.z] == data.items
  {
    if data.JArr? && |data.items| == 3 then Success(Triple(data.items[0], data.items[1], data.items[2]))
    else Failure(VectorArity)
  }

  /** `to_unreal_rotator`: the same check as vectors, with its own message. */
  function ToRotator(data: Json): (r: Result<Triple, string>)
    ensures r.Success? <==> data.JArr? && |data.items| == 3
    ensures r.Failure? ==> r.error == RotatorArity
    ensures r.Success? ==> [r.value.x, r.value.y, r.value.z] == data.items
  {
    if data.JArr? && |data.items| == 3 then Success(Triple(data.items[0], data.items[1], data.items[2]))
    else Failure(RotatorArity)
  }

  /** `to_unreal_color`: at least three components; a fourth is the alpha, the rest are ignored. */
  function ToColor(data: Json): (r: Result<Rgba, string>)
    ensures r.Success? <==> data.JArr? && |data.items| >= 3
    ensures r.Failure? ==> r.error == ColorArity
    ensures r.Success? ==> [r.value.r, r.value.g, r.value.b] == data.items[..3]
    ensures r.Success? ==> r.value.a == if |data.items| > 3 then data.items[3] else DefaultAlpha
  {
    if !data.JArr? || |data.items| < 3 then Failure(ColorArity)
    else
      var alpha := if |data.items| > 3 then data.items[3] else DefaultAlpha;
      Success(Rgba(data.items[0], data.items[1], data.items[2], alpha))
  }

  /** Components after the fourth do not change the colour. */
  lemma ColorIgnoresExtra(items: seq<Json>, extra: seq<Json>)
    requires |items| >= 4
    ensures ToColor(JArr(items + extra)) == ToColor(JArr(items))
  {
    assert (items + extra)[..4] == items[..4];
  }

  /** A three-component colour is opaque, and a vector's components make a colour with that alpha. */
  lemma VectorIsOpaqueColor(data: Json)
    requires ToVector(data).Success?
    ensures ToColor(data).Success? && ToColor(data).value.a == DefaultAlpha
  {
  }
}
