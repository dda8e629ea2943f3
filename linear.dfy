/**
 * Row-major 4×4 matrices over the reals, laid out the way DirectXMath stores an
 * XMFLOAT4X4: points are row vectors, so a pose's first three rows are its local
 * axes and its fourth row (_41, _42, _43, _44) holds the translation. Entry
 * `_ij` is `RowAt(m, i)[j - 1]`; `_42` is `m.r4[1]`.
 *
 * Floating-point rounding is not modelled: entries are exact reals.
 */
module Linear {

  /** One row of a 4×4 matrix. */
  type Row = r: seq<real> | |r| == 4 witness [0.0, 0.0, 0.0, 0.0]

  datatype Mat4 = Mat4(r1: Row, r2: Row, r3: Row, r4: Row)

  /** Sine and cosine of one angle, as XMScalarSinCos returns them. */
  datatype SinCos = SinCos(sin: real, cos: real)

  function Add(a: Row, b: Row): Row {
    seq(4, k requires 0 <= k < 4 => a[k] + b[k])
  }

  function Scale(c: real, a: Row): Row {
    seq(4, k requires 0 <= k < 4 => c * a[k])
  }

  /** Row `i` (1..4) of a matrix. */
  function RowAt(m: Mat4, i: nat): Row
    requires 1 <= i <= 4
  {
    if i == 1 then m.r1 else if i == 2 then m.r2 else if i == 3 then m.r3 else m.r4
  }

  /** Column `j` (1..4) of a matrix, as a row. */
  function ColumnOf(m: Mat4, j: nat): Row
    requires 1 <= j <= 4
  {
    [m.r1[j - 1], m.r2[j - 1], m.r3[j - 1], m.r4[j - 1]]
  }

  function Dot(u: Row, v: Row): real {
    u[0] * v[0] + u[1] * v[1] + u[2] * v[2] + u[3] * v[3]
  }

  /** The row vector `v` times `m`: the combination of m's rows weighted by v. */
  function RowTimes(v: Row, m: Mat4): Row {
    Add(Add(Scale(v[0], m.r1), Scale(v[1], m.r2)), Add(Scale(v[2], m.r3), Scale(v[3], m.r4)))
  }

  /** XMMatrixMultiply(a, b): the product a·b. */
  function Mul(a: Mat4, b: Mat4): Mat4 {
    Mat4(RowTimes(a.r1, b), RowTimes(a.r2, b), RowTimes(a.r3, b), RowTimes(a.r4, b))
  }

  /** XMMatrixIdentity. */
  const Identity := Mat4([1.0, 0.0, 0.0, 0.0], [0.0, 1.0, 0.0, 0.0], [0.0, 0.0, 1.0, 0.0], [0.0, 0.0, 0.0, 1.0])

  /** XMMatrixTranslation(x, y, z): the identity with (x, y, z, 1) as its fourth row. */
  function Translation(x: real, y: real, z: real): Mat4 {
    Mat4([1.0, 0.0, 0.0, 0.0], [0.0, 1.0, 0.0, 0.0], [0.0, 0.0, 1.0, 0.0], [x, y, z, 1.0])
  }

  /** XMMatrixRotationX for an angle whose sine and cosine are `a`. */
  function RotationX(a: SinCos): Mat4 {
    Mat4([1.0, 0.0, 0.0, 0.0], [0.0, a.cos, a.sin, 0.0], [0.0, -a.sin, a.cos, 0.0], [0.0, 0.0, 0.0, 1.0])
  }

  /** XMMatrixRotationY for an angle whose sine and cosine are `a`. */
  function RotationY(a: SinCos): Mat4 {
    Mat4([a.cos, 0.0, -a.sin, 0.0], [0.0, 1.0, 0.0, 0.0], [a.sin, 0.0, a.cos, 0.0], [0.0, 0.0, 0.0, 1.0])
  }

  /** XMMatrixTranspose: row j of the result is column j of m. */
  function Transpose(m: Mat4): Mat4 {
    Mat4(ColumnOf(m, 1), ColumnOf(m, 2), ColumnOf(m, 3), ColumnOf(m, 4))
  }

  /** The pose moved by x, y and z along its own first, second and third rows. */
  function Translated(pose: Mat4, x: real, y: real, z: real): Mat4 {
    pose.(r4 := Add(pose.r4, Add(Add(Scale(x, pose.r1), Scale(y, pose.r2)), Scale(z, pose.r3))))
  }

  /** The first three rows (the orientation part of a pose) agree. */
  predicate SameAxes(a: Mat4, b: Mat4) {
    a.r1 == b.r1 && a.r2 == b.r2 && a.r3 == b.r3
  }

  // ---------------------------------------------------------------------------
  // Lemmas

  /** Mul agrees with the textbook definition: entry ij is row i of a dotted with column j of b. */
  lemma MulIsRowByColumn(a: Mat4, b: Mat4, i: nat, j: nat)
    requires 1 <= i <= 4 && 1 <= j <= 4
    ensures RowAt(Mul(a, b), i)[j - 1] == Dot(RowAt(a, i), ColumnOf(b, j))
  {
    assert RowAt(Mul(a, b), i) == RowTimes(RowAt(a, i), b);
  }

  /** The unit row e_k times m is row k of m. */
  lemma UnitRowTimes(m: Mat4)
    ensures RowTimes([1.0, 0.0, 0.0, 0.0], m) == m.r1
    ensures RowTimes([0.0, 1.0, 0.0, 0.0], m) == m.r2
    ensures RowTimes([0.0, 0.0, 1.0, 0.0], m) == m.r3
    ensures RowTimes([0.0, 0.0, 0.0, 1.0], m) == m.r4
  {
    assert RowTimes([1.0, 0.0, 0.0, 0.0], m) == m.r1;
    assert RowTimes([0.0, 1.0, 0.0, 0.0], m) == m.r2;
    assert RowTimes([0.0, 0.0, 1.0, 0.0], m) == m.r3;
    assert RowTimes([0.0, 0.0, 0.0, 1.0], m) == m.r4;
  }

  /** Left-multiplying a pose by a translation moves it along its own axes and nothing else. */
  lemma TranslationThenPose(x: real, y: real, z: real, pose: Mat4)
    ensures Mul(Translation(x, y, z), pose) == Translated(pose, x, y, z)
  {
    UnitRowTimes(pose);
    assert RowTimes([x, y, z, 1.0], pose) == Translated(pose, x, y, z).r4;
  }

  /** The identity is neutral on both sides of a product. */
  lemma MulIdentity(m: Mat4)
    ensures Mul(Identity, m) == m && Mul(m, Identity) == m
  {
    UnitRowTimes(m);
    forall i | 1 <= i <= 4
      ensures RowTimes(RowAt(m, i), Identity) == RowAt(m, i)
    {
      var r := RowAt(m, i);
      assert RowTimes(r, Identity)[0] == r[0];
      assert RowTimes(r, Identity)[1] == r[1];
      assert RowTimes(r, Identity)[2] == r[2];
      assert RowTimes(r, Identity)[3] == r[3];
    }
    assert Mul(m, Identity).r1 == RowTimes(RowAt(m, 1), Identity);
    assert Mul(m, Identity).r2 == RowTimes(RowAt(m, 2), Identity);
    assert Mul(m, Identity).r3 == RowTimes(RowAt(m, 3), Identity);
    assert Mul(m, Identity).r4 == RowTimes(RowAt(m, 4), Identity);
  }

  /** Both rotations by the zero angle (sine 0, cosine 1) are the identity. */
  lemma ZeroRotations()
    ensures RotationX(SinCos(0.0, 1.0)) == Identity && RotationY(SinCos(0.0, 1.0)) == Identity
  {
  }

  /** Entry ij of the transpose is entry ji of the original, so transposing twice gives the matrix back. */
  lemma TransposeTwice(m: Mat4)
    ensures forall i, j | 1 <= i <= 4 && 1 <= j <= 4 :: RowAt(Transpose(m), i)[j - 1] == RowAt(m, j)[i - 1]
    ensures Transpose(Transpose(m)) == m
  {
    var t := Transpose(Transpose(m));
    assert t.r1 == m.r1 && t.r2 == m.r2 && t.r3 == m.r3 && t.r4 == m.r4;
  }

  /** The transpose of a y rotation is the y rotation by the opposite angle (sine negated, cosine kept). */
  lemma TransposedRotationY(a: SinCos)
    ensures Transpose(RotationY(a)) == RotationY(SinCos(-a.sin, a.cos))
  {
    var t := Transpose(RotationY(a));
    var u := RotationY(SinCos(-a.sin, a.cos));
    assert t.r1 == u.r1 && t.r2 == u.r2 && t.r3 == u.r3 && t.r4 == u.r4;
  }
}
