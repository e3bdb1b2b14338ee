/** Value types shared by the mesh model, the text codec and the viewer. */
module Common {

  datatype Option<+T> = None | Some(value: T) {
    function GetOr(default: T): T {
      match this
      case Some(v) => v
      case None => default
    }
  }

  datatype Result<+T, +E> = Ok(value: T) | Err(error: E)

  /** f applied to every element of s, in order. */
  function Map<A, B>(s: seq<A>, f: A -> B): seq<B> {
    seq(|s|, j requires 0 <= j < |s| => f(s[j]))
  }

  /** Mapping a sequence with one more element at the end. */
  lemma MapSnoc<A, B>(s: seq<A>, f: A -> B)
    requires s != []
    ensures Map(s, f) == Map(s[..|s| - 1], f) + [f(s[|s| - 1])]
  {
    var n := |s| - 1;
    forall j | 0 <= j < |s|
      ensures Map(s, f)[j] == (Map(s[..n], f) + [f(s[n])])[j]
    {
      if j < n {
        assert s[..n][j] == s[j];
      }
    }
  }

  const INT_MIN: int := -0x8000_0000
  const INT_MAX: int := 0x7FFF_FFFF

  /** A C# `int`. */
  type int32 = x: int | INT_MIN <= x <= INT_MAX

  /** A C# `byte`, such as one channel of a pixel. */
  type byte = x: int | 0 <= x < 256

  /** `x - 1` in C#'s unchecked 32-bit arithmetic: the one overflowing case wraps. */
  function Pred32(x: int32): (r: int32)
    ensures x > INT_MIN ==> r == x - 1
    ensures x == INT_MIN ==> r == INT_MAX
  {
    if x == INT_MIN then INT_MAX else x - 1
  }

  /** System.Drawing.Color, reduced to its four channels. */
  datatype Color = Color(a: byte, r: byte, g: byte, b: byte)

  /** `default(Color)`, i.e. Color.Empty: every channel zero. */
  const EmptyColor: Color := Color(0, 0, 0, 0)

  /** OpenTK's Vector3, over the reals (the source uses single-precision floats). */
  datatype Vec3 = Vec3(x: real, y: real, z: real)

  /** OpenTK's Color4 (r, g, b, a), over the reals. */
  datatype Color4 = Color4(r: real, g: real, b: real, a: real)

  const ZeroVec: Vec3 := Vec3(0.0, 0.0, 0.0)

  function Add(a: Vec3, b: Vec3): Vec3 {
    Vec3(a.x + b.x, a.y + b.y, a.z + b.z)
  }

  function Sub(a: Vec3, b: Vec3): Vec3 {
    Vec3(a.x - b.x, a.y - b.y, a.z - b.z)
  }

  function Dot(a: Vec3, b: Vec3): real {
    a.x * b.x + a.y * b.y + a.z * b.z
  }

  /** Vector3.Cross. */
  function Cross(a: Vec3, b: Vec3): Vec3 {
    Vec3(a.y * b.z - a.z * b.y, a.z * b.x - a.x * b.z, a.x * b.y - a.y * b.x)
  }

  /** The cross product is perpendicular to both of its arguments. */
  lemma CrossPerpendicular(a: Vec3, b: Vec3)
    ensures Dot(Cross(a, b), a) == 0.0 && Dot(Cross(a, b), b) == 0.0
  {
    calc {
      Dot(Cross(a, b), a);
      (a.y * b.z - a.z * b.y) * a.x + (a.z * b.x - a.x * b.z) * a.y + (a.x * b.y - a.y * b.x) * a.z;
      a.x * a.y * b.z - a.x * a.z * b.y + a.y * a.z * b.x - a.x * a.y * b.z + a.x * a.z * b.y - a.y * a.z * b.x;
      0.0;
    }
    calc {
      Dot(Cross(a, b), b);
      (a.y * b.z - a.z * b.y) * b.x + (a.z * b.x - a.x * b.z) * b.y + (a.x * b.y - a.y * b.x) * b.z;
      a.y * b.x * b.z - a.z * b.x * b.y + a.z * b.x * b.y - a.x * b.y * b.z + a.x * b.y * b.z - a.y * b.x * b.z;
      0.0;
    }
  }
}
