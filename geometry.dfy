/** Three-component vectors and the 3x3 mount matrices that rotate sensor readings into the
    controller's frame (main.go's `Vec3`, `MountMatrix` and `MountMatrix.Apply`), and the
    conversion of a configured matrix, given as three rows of floats, into a `Matrix`. */
module Geometry {
  import opened Wrappers

  datatype Vec3 = Vec3(x: real, y: real, z: real)

  /** Go's zero value of `Vec3`. */
  const Zero := Vec3(0.0, 0.0, 0.0)

  function Add(a: Vec3, b: Vec3): Vec3 {
    Vec3(a.x + b.x, a.y + b.y, a.z + b.z)
  }

  function Scale(k: real, v: Vec3): Vec3 {
    Vec3(k * v.x, k * v.y, k * v.z)
  }

  /** The same value on every axis. */
  function Uniform(k: real): Vec3 {
    Vec3(k, k, k)
  }

  /** The components in order x, y, z. */
  function Components(v: Vec3): seq<real> {
    [v.x, v.y, v.z]
  }

  /** A mount matrix given by its rows X, Y and Z. Any matrix is allowed: reflections and
      zero rows describe real mountings. */
  datatype Matrix = Matrix(x: Vec3, y: Vec3, z: Vec3)

  /** Go's zero value of `MountMatrix`. */
  const ZeroMatrix := Matrix(Zero, Zero, Zero)

  const Identity := Matrix(Vec3(1.0, 0.0, 0.0), Vec3(0.0, 1.0, 0.0), Vec3(0.0, 0.0, 1.0))

  function Dot(row: Vec3, v: Vec3): real {
    row.x * v.x + row.y * v.y + row.z * v.z
  }

  /** `MountMatrix.Apply`: the matrix-vector product, row by row. */
  function Apply(m: Matrix, v: Vec3): Vec3 {
    Vec3(Dot(m.x, v), Dot(m.y, v), Dot(m.z, v))
  }

  /** The identity matrix leaves every vector as it is. */
  lemma ApplyIdentity(v: Vec3)
    ensures Apply(Identity, v) == v
  {
  }

  /** The zero matrix sends every vector to the zero vector: a sensor with no resolved
      matrix reports zeros. */
  lemma ApplyZeroMatrix(v: Vec3)
    ensures Apply(ZeroMatrix, v) == Zero
  {
  }

  lemma DotLinear(row: Vec3, a: real, v1: Vec3, b: real, v2: Vec3)
    ensures Dot(row, Add(Scale(a, v1), Scale(b, v2))) == a * Dot(row, v1) + b * Dot(row, v2)
  {
    calc {
      Dot(row, Add(Scale(a, v1), Scale(b, v2)));
      row.x * (a * v1.x + b * v2.x) + row.y * (a * v1.y + b * v2.y) + row.z * (a * v1.z + b * v2.z);
      a * (row.x * v1.x + row.y * v1.y + row.z * v1.z) + b * (row.x * v2.x + row.y * v2.y + row.z * v2.z);
    }
  }

  /** Applying a mount matrix is linear. */
  lemma ApplyLinear(m: Matrix, a: real, v1: Vec3, b: real, v2: Vec3)
    ensures Apply(m, Add(Scale(a, v1), Scale(b, v2))) == Add(Scale(a, Apply(m, v1)), Scale(b, Apply(m, v2)))
  {
    DotLinear(m.x, a, v1, b, v2);
    DotLinear(m.y, a, v1, b, v2);
    DotLinear(m.z, a, v1, b, v2);
  }

  /** A matrix row as configured: exactly three floats make a row. */
  predicate IsRow(r: seq<real>) { |r| == 3 }

  /** The `parseMatrix` closure of `main`: three rows of exactly three floats each make a
      matrix whose rows are those lists; anything else makes none. */
  function ParseMatrix(x: seq<real>, y: seq<real>, z: seq<real>): (r: Option<Matrix>)
    ensures r.Some? <==> IsRow(x) && IsRow(y) && IsRow(z)
    ensures r.Some? ==> Components(r.value.x) == x && Components(r.value.y) == y
                        && Components(r.value.z) == z
  {
    if |x| == 3 && |y| == 3 && |z| == 3 then
      Some(Matrix(Vec3(x[0], x[1], x[2]), Vec3(y[0], y[1], y[2]), Vec3(z[0], z[1], z[2])))
    else
      None
  }
}
