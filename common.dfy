/**
 * Values shared by every part of the model: an optional value, exact real
 * 3-vectors (Blender's `Vector`), and the small sequence helpers the tile
 * builders use on lists of coordinates.
 */
module Common {

  datatype Option<T> = None | Some(value: T)

  /** A location or offset in scene units. Coordinates are exact reals. */
  datatype Vec3 = Vec3(x: real, y: real, z: real)

  const Origin: Vec3 := Vec3(0.0, 0.0, 0.0)

  function Add(a: Vec3, b: Vec3): Vec3
  {
    Vec3(a.x + b.x, a.y + b.y, a.z + b.z)
  }

  function Sub(a: Vec3, b: Vec3): Vec3
  {
    Vec3(a.x - b.x, a.y - b.y, a.z - b.z)
  }

  /** `Vector((0, 0, dz)) + v`: the point raised by `dz`. */
  function Up(v: Vec3, dz: real): Vec3
  {
    Add(Vec3(0.0, 0.0, dz), v)
  }

  /** Every coordinate of a list raised by `dz`. */
  function Lift(s: seq<Vec3>, dz: real): seq<Vec3>
  {
    seq(|s|, i requires 0 <= i < |s| => Up(s[i], dz))
  }

  /** Python's `s[::-1]`. */
  function Reverse<T>(s: seq<T>): seq<T>
  {
    seq(|s|, i requires 0 <= i < |s| => s[|s| - 1 - i])
  }

  function Min(a: int, b: int): int
  {
    if a <= b then a else b
  }

  /** Adding the same vector on the left cancels. */
  lemma AddCancel(a: Vec3, b: Vec3, c: Vec3)
    requires Add(a, b) == Add(a, c)
    ensures b == c
  {
  }

  lemma LiftZero(s: seq<Vec3>)
    ensures Lift(s, 0.0) == s
  {
  }

  lemma LiftLift(s: seq<Vec3>, a: real, b: real)
    ensures Lift(Lift(s, a), b) == Lift(s, a + b)
  {
  }
}
