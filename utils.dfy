/** Layout conversions between cgmath values and the plain nested arrays the
    shaders consume (src/utils.rs). A `Mat4` is a 4x4 nested array, modelled
    as a sequence of four sequences of four entries. */
module Utils {

  /** cgmath's `Point3`. */
  datatype Point3<T> = Point3(x: T, y: T, z: T)

  /** cgmath's `Vector4`, used as a matrix column. */
  datatype Vector4<T> = Vector4(x: T, y: T, z: T, w: T)

  /** cgmath's `Matrix4`: four columns `x`, `y`, `z`, `w`. */
  datatype Matrix4<T> = Matrix4(x: Vector4<T>, y: Vector4<T>, z: Vector4<T>, w: Vector4<T>)

  /** Column `i` of `m`, counting x, y, z, w as 0, 1, 2, 3. */
  function Column<T>(m: Matrix4<T>, i: nat): Vector4<T>
    requires i < 4
  {
    if i == 0 then m.x else if i == 1 then m.y else if i == 2 then m.z else m.w
  }

  /** Component `j` of `v`, counting x, y, z, w as 0, 1, 2, 3. */
  function Component<T>(v: Vector4<T>, j: nat): T
    requires j < 4
  {
    if j == 0 then v.x else if j == 1 then v.y else if j == 2 then v.z else v.w
  }

  /** The shape of `Mat4<T> = [[T; 4]; 4]`. */
  predicate IsMat4<T>(a: seq<seq<T>>) {
    |a| == 4 && forall i :: 0 <= i < 4 ==> |a[i]| == 4
  }

  /** `array_to_point3`: the three array entries become x, y and z in order. */
  function ArrayToPoint3<T>(value: seq<T>): (p: Point3<T>)
    requires |value| == 3
    ensures [p.x, p.y, p.z] == value
  {
    Point3(value[0], value[1], value[2])
  }

  /** `matrix4_to_array`: row `i` of the result is column `i` of the matrix. */
  function MatrixToArray<T>(m: Matrix4<T>): (a: seq<seq<T>>)
    ensures IsMat4(a)
    ensures forall i, j :: 0 <= i < 4 && 0 <= j < 4 ==> a[i][j] == Component(Column(m, i), j)
  {
    [
      [m.x.x, m.x.y, m.x.z, m.x.w],
      [m.y.x, m.y.y, m.y.z, m.y.w],
      [m.z.x, m.z.y, m.z.z, m.z.w],
      [m.w.x, m.w.y, m.w.z, m.w.w]
    ]
  }

  /** Reading a nested array back as a matrix, row `i` as column `i`. */
  function ArrayToMatrix<T>(a: seq<seq<T>>): Matrix4<T>
    requires IsMat4(a)
  {
    Matrix4(
      Vector4(a[0][0], a[0][1], a[0][2], a[0][3]),
      Vector4(a[1][0], a[1][1], a[1][2], a[1][3]),
      Vector4(a[2][0], a[2][1], a[2][2], a[2][3]),
      Vector4(a[3][0], a[3][1], a[3][2], a[3][3]))
  }

  /** Flattening loses nothing: the matrix can be read back from its array. */
  lemma MatrixToArrayRoundTrip<T>(m: Matrix4<T>)
    ensures ArrayToMatrix(MatrixToArray(m)) == m
  {
  }

  /** Every 4x4 array is the flattening of exactly the matrix read from it. */
  lemma ArrayToMatrixRoundTrip<T>(a: seq<seq<T>>)
    requires IsMat4(a)
    ensures MatrixToArray(ArrayToMatrix(a)) == a
  {
    var b := MatrixToArray(ArrayToMatrix(a));
    forall i | 0 <= i < 4 ensures b[i] == a[i] {
      assert |b[i]| == |a[i]| == 4;
    }
  }

  /** Each of the sixteen components lands in its own cell, so distinct matrices give distinct arrays. */
  lemma MatrixToArrayInjective<T>(m1: Matrix4<T>, m2: Matrix4<T>)
    requires MatrixToArray(m1) == MatrixToArray(m2)
    ensures m1 == m2
  {
    MatrixToArrayRoundTrip(m1);
    MatrixToArrayRoundTrip(m2);
  }

  /** `Matrix4::identity()`, with the scalar type's zero and one. */
  function IdentityMatrix<T>(zero: T, one: T): Matrix4<T> {
    Matrix4(
      Vector4(one, zero, zero, zero),
      Vector4(zero, one, zero, zero),
      Vector4(zero, zero, one, zero),
      Vector4(zero, zero, zero, one))
  }

  /** The identity as a nested array: one on the diagonal, zero elsewhere. */
  function IdentityArray<T>(zero: T, one: T): (a: seq<seq<T>>)
    ensures IsMat4(a)
    ensures forall i, j :: 0 <= i < 4 && 0 <= j < 4 ==> a[i][j] == if i == j then one else zero
  {
    [[one, zero, zero, zero], [zero, one, zero, zero], [zero, zero, one, zero], [zero, zero, zero, one]]
  }

  /** Flattening the identity matrix gives the identity array. */
  lemma MatrixToArrayIdentity<T>(zero: T, one: T)
    ensures MatrixToArray(IdentityMatrix(zero, one)) == IdentityArray(zero, one)
  {
  }
}
