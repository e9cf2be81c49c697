/**
 * The vector and matrix primitives of the demo's math library, kept opaque.
 *
 * Vectors are real-valued (single-precision rounding is not modelled).  A
 * 4x4 matrix is a formal term built from the constructors the demo calls;
 * two matrices are equal here only when they are built the same way, so the
 * model can say WHICH matrix is stored, never what its entries are.
 */
module Geometry {

  /** M_PI, written out to double precision. */
  const Pi: real := 3.141592653589793

  datatype Vector2D = Vector2D(x: real, y: real)

  datatype Vector3D = Vector3D(x: real, y: real, z: real)

  const Origin: Vector3D := Vector3D(0.0, 0.0, 0.0)

  function Add(a: Vector3D, b: Vector3D): Vector3D
  {
    Vector3D(a.x + b.x, a.y + b.y, a.z + b.z)
  }

  function Scale(v: Vector3D, s: real): Vector3D
  {
    Vector3D(s * v.x, s * v.y, s * v.z)
  }

  function Negate(v: Vector3D): Vector3D
  {
    Vector3D(-v.x, -v.y, -v.z)
  }

  function Sub2(a: Vector2D, b: Vector2D): Vector2D
  {
    Vector2D(a.x - b.x, a.y - b.y)
  }

  /** A matrix as the formal product of the primitives the demo builds it from. */
  datatype Matrix4D =
    | Identity
    | Translation(offset: Vector3D)
    | RotationX(angleX: real)
    | RotationY(angleY: real)
    | RotationZ(angleZ: real)
    | Product(left: Matrix4D, right: Matrix4D)

  /** translation(pivot) * m * translation(-pivot): `m` applied about `pivot`. */
  function RotateAboutPivot(pivot: Vector3D, m: Matrix4D): Matrix4D
  {
    Product(Product(Translation(pivot), m), Translation(Negate(pivot)))
  }
}
