/** Swizzles: the lane selectors that a symbol reference carries, and the three helpers of the
  * builder that interpret them (IsIdentitySwizzle, GetSwizzleElementCount, TransformSwizzle). */
module Swizzle {
  import opened Wrappers

  datatype Swizzle =
    | X | Y | Z | W
    | XX | XY | XZ | XW | ZZ | ZW | WW
    | XXX | XYZ | WWW
    | XXXX | XYZW | WWWW

  /** Reference meaning of a swizzle: the lanes of the underlying four-lane vector it reads,
    * in order (0 is x, 3 is w). */
  function Lanes(s: Swizzle): (r: seq<nat>)
    ensures 1 <= |r| <= 4
    ensures forall i :: 0 <= i < |r| ==> r[i] < 4
  {
    match s
    case X => [0]
    case Y => [1]
    case Z => [2]
    case W => [3]
    case XX => [0, 0]
    case XY => [0, 1]
    case XZ => [0, 2]
    case XW => [0, 3]
    case ZZ => [2, 2]
    case ZW => [2, 3]
    case WW => [3, 3]
    case XXX => [0, 0, 0]
    case XYZ => [0, 1, 2]
    case WWW => [3, 3, 3]
    case XXXX => [0, 0, 0, 0]
    case XYZW => [0, 1, 2, 3]
    case WWWW => [3, 3, 3, 3]
  }

  /** A lane list reads the first lanes of the vector, in place. */
  predicate IsIdentityLanes(l: seq<nat>)
  {
    forall i :: 0 <= i < |l| ==> l[i] == i
  }

  /** `IsIdentitySwizzle`: the swizzle reads a prefix of the vector unchanged. */
  function IsIdentitySwizzle(s: Swizzle): (b: bool)
    ensures b <==> IsIdentityLanes(Lanes(s))
  {
    match s
    case X | XY | XYZ | XYZW => true
    case Y | Z | W | ZZ | ZW | WW | WWW | WWWW =>
      assert Lanes(s)[0] != 0;
      false
    case XX | XZ | XW | XXX | XXXX =>
      assert Lanes(s)[1] != 1;
      false
  }

  /** `GetSwizzleElementCount`: only the single-lane swizzles X and Y are supported; every other
    * swizzle is a contract violation. */
  function ElementCount(s: Swizzle): (r: Result<nat>)
    ensures r.Ok? <==> s == X || s == Y
    ensures r.Ok? ==> r.value == |Lanes(s)|
  {
    match s
    case X | Y => Ok(1)
    case _ => Err("GetSwizzleElementCount: unsupported swizzle")
  }

  /** `lc` is what reading the lanes `lb` out of a view with lanes `la` gives, wherever `lb`
    * stays inside that view. */
  predicate Composes(la: seq<nat>, lb: seq<nat>, lc: seq<nat>)
  {
    |lc| == |lb| && forall i :: 0 <= i < |lb| && lb[i] < |la| ==> lc[i] == la[lb[i]]
  }

  /** `TransformSwizzle(a, b)`: the swizzle that applies `b` to a reference already swizzled by
    * `a`. An identity `a` passes `b` through; `a == ZW` maps X to Z and Y to W; every other
    * combination is a contract violation. */
  function Transform(a: Swizzle, b: Swizzle): (r: Result<Swizzle>)
    ensures r.Ok? <==> IsIdentitySwizzle(a) || (a == ZW && (b == X || b == Y))
    ensures r.Ok? && IsIdentitySwizzle(a) ==> r.value == b
    ensures r.Ok? ==> Composes(Lanes(a), Lanes(b), Lanes(r.value))
  {
    if IsIdentitySwizzle(a) then Ok(b)
    else if a == ZW then
      match b
      case X => Ok(Z)
      case Y => Ok(W)
      case _ => Err("TransformSwizzle: unsupported inner swizzle")
    else Err("TransformSwizzle: unsupported outer swizzle")
  }
}
