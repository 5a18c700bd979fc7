/** The combined pose matrix of the `pose-matrices` component: a 4x4
    product of the flat 16-element inverse-view matrix and the flat
    16-element projection matrix, both in row-major index order. */
module Matrix4 {

  /** A flat 4x4 matrix, as WebXR hands it out (16 numbers). */
  type Mat4 = m: seq<real> | |m| == 16 witness seq(16, _ => 0.0)

  /** The combined matrix exactly as the component writes it out: entry
      4*i+j is b_i0*a_0j + b_i1*a_1j + b_i2*a_2j + b_i3*a_3j with `b` the
      inverse view matrix and `a` the projection matrix. */
  function Combine(inv: Mat4, proj: Mat4): Mat4
  {
    var a00, a01, a02, a03 := proj[0], proj[1], proj[2], proj[3];
    var a10, a11, a12, a13 := proj[4], proj[5], proj[6], proj[7];
    var a20, a21, a22, a23 := proj[8], proj[9], proj[10], proj[11];
    var a30, a31, a32, a33 := proj[12], proj[13], proj[14], proj[15];
    var b00, b01, b02, b03 := inv[0], inv[1], inv[2], inv[3];
    var b10, b11, b12, b13 := inv[4], inv[5], inv[6], inv[7];
    var b20, b21, b22, b23 := inv[8], inv[9], inv[10], inv[11];
    var b30, b31, b32, b33 := inv[12], inv[13], inv[14], inv[15];
    [
      b00 * a00 + b01 * a10 + b02 * a20 + b03 * a30,
      b00 * a01 + b01 * a11 + b02 * a21 + b03 * a31,
      b00 * a02 + b01 * a12 + b02 * a22 + b03 * a32,
      b00 * a03 + b01 * a13 + b02 * a23 + b03 * a33,
      b10 * a00 + b11 * a10 + b12 * a20 + b13 * a30,
      b10 * a01 + b11 * a11 + b12 * a21 + b13 * a31,
      b10 * a02 + b11 * a12 + b12 * a22 + b13 * a32,
      b10 * a03 + b11 * a13 + b12 * a23 + b13 * a33,
      b20 * a00 + b21 * a10 + b22 * a20 + b23 * a30,
      b20 * a01 + b21 * a11 + b22 * a21 + b23 * a31,
      b20 * a02 + b21 * a12 + b22 * a22 + b23 * a32,
      b20 * a03 + b21 * a13 + b22 * a23 + b23 * a33,
      b30 * a00 + b31 * a10 + b32 * a20 + b33 * a30,
      b30 * a01 + b31 * a11 + b32 * a21 + b33 * a31,
      b30 * a02 + b31 * a12 + b32 * a22 + b33 * a32,
      b30 * a03 + b31 * a13 + b32 * a23 + b33 * a33
    ]
  }

  /** Reference definition of a row-major matrix product entry:
      the sum over k < n of a[4*i+k] * b[4*k+j]. */
  function RowCol(a: Mat4, b: Mat4, i: nat, j: nat, n: nat): real
    requires i < 4 && j < 4 && n <= 4
  {
    if n == 0 then 0.0 else RowCol(a, b, i, j, n - 1) + a[4 * i + n - 1] * b[4 * (n - 1) + j]
  }

  /** The product a x b, built entry by entry from the reference sum. */
  function Product(a: Mat4, b: Mat4): Mat4
  {
    seq(16, n requires 0 <= n < 16 => RowCol(a, b, n / 4, n % 4, 4))
  }

  /** One entry of a full (n == 4) reference sum, written out. */
  lemma {:induction false} RowColFull(a: Mat4, b: Mat4, i: nat, j: nat)
    requires i < 4 && j < 4
    ensures RowCol(a, b, i, j, 4)
         == a[4 * i] * b[j] + a[4 * i + 1] * b[4 + j] + a[4 * i + 2] * b[8 + j] + a[4 * i + 3] * b[12 + j]
  {
    assert RowCol(a, b, i, j, 1) == a[4 * i] * b[j];
    assert RowCol(a, b, i, j, 2) == RowCol(a, b, i, j, 1) + a[4 * i + 1] * b[4 + j];
    assert RowCol(a, b, i, j, 3) == RowCol(a, b, i, j, 2) + a[4 * i + 2] * b[8 + j];
  }

  /** Row 0 (first four entries) of the combined matrix. */
  lemma {:induction false} CombineRow0(inv: Mat4, proj: Mat4, j: nat)
    requires j < 4
    ensures Combine(inv, proj)[0 + j] == RowCol(inv, proj, 0, j, 4)
  {
    RowColFull(inv, proj, 0, j);
    if j == 0 {} else if j == 1 {} else if j == 2 {} else {}
  }

  /** Row 1 (second four entries) of the combined matrix. */
  lemma {:induction false} CombineRow1(inv: Mat4, proj: Mat4, j: nat)
    requires j < 4
    ensures Combine(inv, proj)[4 + j] == RowCol(inv, proj, 1, j, 4)
  {
    RowColFull(inv, proj, 1, j);
    if j == 0 {} else if j == 1 {} else if j == 2 {} else {}
  }

  /** Row 2 (third four entries) of the combined matrix. */
  lemma {:induction false} CombineRow2(inv: Mat4, proj: Mat4, j: nat)
    requires j < 4
    ensures Combine(inv, proj)[8 + j] == RowCol(inv, proj, 2, j, 4)
  {
    RowColFull(inv, proj, 2, j);
    if j == 0 {} else if j == 1 {} else if j == 2 {} else {}
  }

  /** Row 3 (fourth four entries) of the combined matrix. */
  lemma {:induction false} CombineRow3(inv: Mat4, proj: Mat4, j: nat)
    requires j < 4
    ensures Combine(inv, proj)[12 + j] == RowCol(inv, proj, 3, j, 4)
  {
    RowColFull(inv, proj, 3, j);
    if j == 0 {} else if j == 1 {} else if j == 2 {} else {}
  }

  /** The straight-line combined matrix is the product inverse-view x
      projection: each of its 16 entries is the row-by-column sum. */
  lemma {:induction false} CombineIsProduct(inv: Mat4, proj: Mat4)
    ensures Combine(inv, proj) == Product(inv, proj)
    ensures forall i: nat, j: nat :: i < 4 && j < 4 ==>
      Combine(inv, proj)[4 * i + j] == RowCol(inv, proj, i, j, 4)
  {
    var c, p := Combine(inv, proj), Product(inv, proj);
    forall n | 0 <= n < 16
      ensures c[n] == p[n]
    {
      if n < 4 {
        CombineRow0(inv, proj, n);
      } else if n < 8 {
        CombineRow1(inv, proj, n - 4);
      } else if n < 12 {
        CombineRow2(inv, proj, n - 8);
      } else {
        CombineRow3(inv, proj, n - 12);
      }
    }
    forall i: nat, j: nat | i < 4 && j < 4
      ensures c[4 * i + j] == RowCol(inv, proj, i, j, 4)
    {
      assert c[4 * i + j] == p[4 * i + j];
    }
  }

  /** The identity matrix. */
  const Identity: Mat4 := [1.0, 0.0, 0.0, 0.0,
                           0.0, 1.0, 0.0, 0.0,
                           0.0, 0.0, 1.0, 0.0,
                           0.0, 0.0, 0.0, 1.0]

  /** With the viewer at the origin (identity inverse view) the combined
      matrix is the projection matrix itself. */
  lemma CombineIdentityView(proj: Mat4)
    ensures Combine(Identity, proj) == proj
  {
  }
}
