/**
 * The engine's value types (vectors, quaternions, 4x4 matrices) and the
 * engine library calls the plugin uses. Single-precision floats are modelled
 * as `real`; the library calls whose bodies are not part of this model are
 * carried as function values in an `Engine` record, so that every statement
 * about them holds for any implementation.
 */
module EngineMath {

  datatype Vector2 = Vector2(x: real, y: real)

  datatype Vector3 = Vector3(x: real, y: real, z: real)

  datatype Quaternion = Quaternion(x: real, y: real, z: real, w: real)

  const ZeroVector2 := Vector2(0.0, 0.0)
  const ZeroVector3 := Vector3(0.0, 0.0, 0.0)
  const ZeroQuaternion := Quaternion(0.0, 0.0, 0.0, 0.0)

  /** Component-wise sum, the engine's `Vector3 + Vector3`. */
  function Add(a: Vector3, b: Vector3): Vector3 {
    Vector3(a.x + b.x, a.y + b.y, a.z + b.z)
  }

  /** The engine's `Vector3 * float`. */
  function Scale(v: Vector3, k: real): Vector3 {
    Vector3(v.x * k, v.y * k, v.z * k)
  }

  /**
   * A 4x4 engine matrix, row-major: entry (row, col) with rows and columns
   * numbered from 0 is element 4 * row + col (the engine's M11 .. M44).
   */
  type Matrix = m: seq<real> | |m| == 16
    witness [0.0, 0.0, 0.0, 0.0, 0.0, 0.0, 0.0, 0.0, 0.0, 0.0, 0.0, 0.0, 0.0, 0.0, 0.0, 0.0]

  /** The value of a default-initialised engine matrix (all zeros). */
  const ZeroMatrix: Matrix := [0.0, 0.0, 0.0, 0.0, 0.0, 0.0, 0.0, 0.0, 0.0, 0.0, 0.0, 0.0, 0.0, 0.0, 0.0, 0.0]

  function At(m: Matrix, row: nat, col: nat): real
    requires row < 4 && col < 4
  {
    m[4 * row + col]
  }

  /** The engine's `Transform`: translation, orientation and scale of an actor. */
  datatype Transform = Transform(translation: Vector3, orientation: Quaternion, scale: Vector3)

  /** What the engine's `Matrix.Decompose` yields. */
  datatype Decomposition = Decomposition(scale: Vector3, rotation: Quaternion, translation: Vector3)

  /** The engine library calls, left uninterpreted. */
  datatype Engine = Engine(
    invert: Matrix -> Matrix,
    multiply: (Matrix, Matrix) -> Matrix,
    decompose: Matrix -> Decomposition,
    perspectiveOffCenter: (real, real, real, real, real, real) -> Matrix,
    transform: (Vector3, Quaternion) -> Vector3,
    lookAt: (Vector3, Vector3, Vector3) -> Matrix)
}
