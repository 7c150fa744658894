/** The math helpers over the vector templates: clamping, sign, component
    minimum and maximum, the translation, scaling and frustum matrices, the
    entry-wise matrix product, matrix times vector, linear interpolation and
    the integer pseudo-random generator. */
module TMath {
  import opened TVec

  // ---------------------------------------------------------------------------
  // Scalars and component-wise selections
  // ---------------------------------------------------------------------------

  /** `clamp(t, min, max)`: max above the range, min below it, t inside. */
  function Clamp(t: real, lo: real, hi: real): (r: real)
    ensures lo <= hi ==> lo <= r <= hi
    ensures lo <= t <= hi ==> r == t
    ensures t > hi ==> r == hi
    ensures t <= hi && t < lo ==> r == lo
  {
    if t > hi then hi else if t < lo then lo else t
  }

  /** Clamping twice clamps once. */
  lemma ClampIdempotent(t: real, lo: real, hi: real)
    requires lo <= hi
    ensures Clamp(Clamp(t, lo, hi), lo, hi) == Clamp(t, lo, hi)
  {
  }

  /** `sgn`: 1, -1 or 0 by the sign of x. */
  function Sgn(x: real): (r: real)
    ensures r == 1.0 <==> x > 0.0
    ensures r == -1.0 <==> x < 0.0
    ensures r == 0.0 <==> x == 0.0
  {
    if x > 0.0 then 1.0 else if x < 0.0 then -1.0 else 0.0
  }

  /** `min` of two vectors, component by component. */
  function MinV(x: Vec, y: Vec): (r: Vec)
    requires |x| == |y|
    ensures |r| == |x|
    ensures forall n :: 0 <= n < |r| ==> r[n] <= x[n] && r[n] <= y[n] && (r[n] == x[n] || r[n] == y[n])
  {
    seq(|x|, n requires 0 <= n < |x| => if y[n] < x[n] then y[n] else x[n])
  }

  /** `max` of two vectors, component by component. */
  function MaxV(x: Vec, y: Vec): (r: Vec)
    requires |x| == |y|
    ensures |r| == |x|
    ensures forall n :: 0 <= n < |r| ==> r[n] >= x[n] && r[n] >= y[n] && (r[n] == x[n] || r[n] == y[n])
  {
    seq(|x|, n requires 0 <= n < |x| => if x[n] < y[n] then y[n] else x[n])
  }

  /** Minimum and maximum split each pair of components between them. */
  lemma MinPlusMax(x: Vec, y: Vec)
    requires |x| == |y|
    ensures Add(MinV(x, y), MaxV(x, y)) == Add(x, y)
  {
    assert forall n :: 0 <= n < |x| ==> Add(MinV(x, y), MaxV(x, y))[n] == Add(x, y)[n];
  }

  /** `operator/(s, v)`: s divided by each component. */
  function ScalarDiv(s: real, v: Vec): (r: Vec)
    requires forall n :: 0 <= n < |v| ==> v[n] != 0.0
    ensures |r| == |v|
  {
    seq(|v|, n requires 0 <= n < |v| => s / v[n])
  }

  /** Multiplying back by v gives s in every component. */
  lemma ScalarDivInverse(s: real, v: Vec)
    requires forall n :: 0 <= n < |v| ==> v[n] != 0.0
    ensures Mul(ScalarDiv(s, v), v) == seq(|v|, _ => s)
  {
    assert forall n :: 0 <= n < |v| ==> Mul(ScalarDiv(s, v), v)[n] == s;
  }

  // ---------------------------------------------------------------------------
  // Matrix times vector
  // ---------------------------------------------------------------------------

  /** `mat * vec` (and `vec * mat`, which runs the same loop): row m of the
      result is Σ_n vec[n]·mat[n][m], the dot of vec with row m. */
  function MatVec(mat: Mat, vec: Vec, h: nat): (r: Vec)
    requires IsMat(mat, |vec|, h)
    ensures |r| == h
  {
    seq(h, m requires 0 <= m < h => Dot(vec, Row(mat, m)))
  }

  /** The identity leaves every vector as it is. */
  lemma MatVecIdentity(v: Vec)
    ensures MatVec(Identity(|v|), v, |v|) == v
  {
    var n := |v|;
    forall m | 0 <= m < n
      ensures MatVec(Identity(n), v, n)[m] == v[m]
    {
      assert Row(Identity(n), m) == Unit(n, m);
      DotUnit(n, m, v);
    }
  }

  /** The inner loop of `mat * vec`: Σ_n vec[n]·mat[n][m]. */
  method RowSum(mat: Mat, vec: Vec, h: nat, m: nat) returns (sum: real)
    requires IsMat(mat, |vec|, h) && m < h
    ensures sum == Dot(vec, Row(mat, m))
  {
    ghost var row := Row(mat, m);
    sum := 0.0;
    var n := 0;
    while n < |vec|
      invariant 0 <= n <= |vec|
      invariant sum == Dot(vec[..n], row[..n])
    {
      DotSnoc(vec[..n], row[..n], vec[n], mat[n][m]);
      assert vec[..n + 1] == vec[..n] + [vec[n]] && row[..n + 1] == row[..n] + [mat[n][m]];
      sum := sum + vec[n] * mat[n][m];
      n := n + 1;
    }
    assert vec[..n] == vec && row[..n] == row;
  }

  /** `mat * vec`: a zero vector filled row by row. */
  method MatTimesVec(mat: Mat, vec: Vec, h: nat) returns (result: Vec)
    requires IsMat(mat, |vec|, h)
    ensures result == MatVec(mat, vec, h)
  {
    result := seq(h, _ => 0.0);
    var m := 0;
    while m < h
      invariant 0 <= m <= h && |result| == h
      invariant forall k :: 0 <= k < m ==> result[k] == MatVec(mat, vec, h)[k]
    {
      var sum := RowSum(mat, vec, h, m);
      result := result[m := sum];
      m := m + 1;
    }
  }

  /** Dot of two 4-vectors, written out. */
  lemma Dot4(a: Vec, b: Vec)
    requires |a| == 4 && |b| == 4
    ensures Dot(a, b) == a[0] * b[0] + a[1] * b[1] + a[2] * b[2] + a[3] * b[3]
  {
    var a3, b3 := a[..3], b[..3];
    Dot3(a3, b3);
    assert Dot(a, b) == Dot(a3, b3) + a[3] * b[3];
  }

  /** Row i of a 4×4 matrix times a 4-vector, written out. */
  lemma MatVec4(mat: Mat, v: Vec, i: nat)
    requires |v| == 4 && IsMat(mat, 4, 4) && i < 4
    ensures MatVec(mat, v, 4)[i] == v[0] * mat[0][i] + v[1] * mat[1][i] + v[2] * mat[2][i] + v[3] * mat[3][i]
  {
    Dot4(v, Row(mat, i));
  }

  /** Row i of a 3×3 matrix times a 3-vector, written out. */
  lemma MatVec3(mat: Mat, v: Vec, i: nat)
    requires |v| == 3 && IsMat(mat, 3, 3) && i < 3
    ensures MatVec(mat, v, 3)[i] == v[0] * mat[0][i] + v[1] * mat[1][i] + v[2] * mat[2][i]
  {
    Dot3(v, Row(mat, i));
  }

  // ---------------------------------------------------------------------------
  // Transformation matrices
  // ---------------------------------------------------------------------------

  /** `translate(x, y)` (and its vector overload): the 3×3 matrix with
      columns (1, 0, 0), (0, 1, 0), (x, y, 1). */
  function Translate2(x: real, y: real): (r: Mat)
    ensures IsMat(r, 3, 3)
  {
    [[1.0, 0.0, 0.0], [0.0, 1.0, 0.0], [x, y, 1.0]]
  }

  /** The 2D translation moves the point (px, py) by (x, y). */
  lemma Translate2Moves(x: real, y: real, px: real, py: real)
    ensures MatVec(Translate2(x, y), [px, py, 1.0], 3) == [px + x, py + y, 1.0]
  {
    var t, v := Translate2(x, y), [px, py, 1.0];
    MatVec3(t, v, 0);
    MatVec3(t, v, 1);
    MatVec3(t, v, 2);
  }

  /** `translate(x, y, z)` (and its vector overload): the identity with
      (x, y, z, 1) as its last column. */
  function Translate3(x: real, y: real, z: real): (r: Mat)
    ensures IsMat(r, 4, 4)
  {
    [[1.0, 0.0, 0.0, 0.0], [0.0, 1.0, 0.0, 0.0], [0.0, 0.0, 1.0, 0.0], [x, y, z, 1.0]]
  }

  /** The 3D translation moves the point (px, py, pz) by (x, y, z). */
  lemma Translate3Moves(x: real, y: real, z: real, px: real, py: real, pz: real)
    ensures MatVec(Translate3(x, y, z), [px, py, pz, 1.0], 4) == [px + x, py + y, pz + z, 1.0]
  {
    var t, v := Translate3(x, y, z), [px, py, pz, 1.0];
    var r := MatVec(t, v, 4);
    MatVec4(t, v, 0);
    MatVec4(t, v, 1);
    MatVec4(t, v, 2);
    MatVec4(t, v, 3);
    assert r[0] == px + x && r[1] == py + y && r[2] == pz + z && r[3] == 1.0;
  }

  /** `scale(x, y, z)` (and its vector overload): diag(x, y, z, 1). */
  function Scale3(x: real, y: real, z: real): (r: Mat)
    ensures IsMat(r, 4, 4)
  {
    [[x, 0.0, 0.0, 0.0], [0.0, y, 0.0, 0.0], [0.0, 0.0, z, 0.0], [0.0, 0.0, 0.0, 1.0]]
  }

  /** The scaling multiplies each coordinate by its factor and keeps w. */
  lemma Scale3Scales(x: real, y: real, z: real, px: real, py: real, pz: real, w: real)
    ensures MatVec(Scale3(x, y, z), [px, py, pz, w], 4) == [px * x, py * y, pz * z, w]
  {
    var s, v := Scale3(x, y, z), [px, py, pz, w];
    var r := MatVec(s, v, 4);
    MatVec4(s, v, 0);
    MatVec4(s, v, 1);
    MatVec4(s, v, 2);
    MatVec4(s, v, 3);
    assert r[0] == px * x && r[1] == py * y && r[2] == pz * z && r[3] == w;
  }

  /** `scale(x)`: diag(x, x, x, 1). */
  function ScaleUniform(x: real): (r: Mat)
    ensures IsMat(r, 4, 4)
  {
    [[x, 0.0, 0.0, 0.0], [0.0, x, 0.0, 0.0], [0.0, 0.0, x, 0.0], [0.0, 0.0, 0.0, 1.0]]
  }

  /** The uniform scaling is the scaling with three equal factors. */
  lemma ScaleUniformIsScale3(x: real)
    ensures ScaleUniform(x) == Scale3(x, x, x)
  {
  }

  /** The bounds `frustum` refuses: an empty width, height or depth range, or
      a negative near or far distance. */
  predicate FrustumDegenerate(left: real, right: real, bottom: real, top: real, n: real, f: real)
  {
    right == left || top == bottom || n == f || n < 0.0 || f < 0.0
  }

  /** `frustum`: the identity for degenerate bounds, otherwise the
      perspective projection of the box [left, right] × [bottom, top] on
      the near plane at distance n, with the far plane at distance f. */
  function Frustum(left: real, right: real, bottom: real, top: real, n: real, f: real): (r: Mat)
    ensures IsMat(r, 4, 4)
    ensures FrustumDegenerate(left, right, bottom, top, n, f) ==> r == Identity(4)
  {
    if FrustumDegenerate(left, right, bottom, top, n, f) then Identity(4)
    else
      [[2.0 * n / (right - left), 0.0, 0.0, 0.0],
       [0.0, 2.0 * n / (top - bottom), 0.0, 0.0],
       [(right + left) / (right - left), (top + bottom) / (top - bottom), -(f + n) / (f - n), -1.0],
       [0.0, 0.0, -(2.0 * f * n) / (f - n), 0.0]]
  }

  /** The x (or y) row at the low edge of the near plane. */
  lemma NearLow(lo: real, hi: real, n: real)
    requires hi != lo
    ensures lo * (2.0 * n / (hi - lo)) + -n * ((hi + lo) / (hi - lo)) == -n
  {
    var d := hi - lo;
    var q := 1.0 / d;
    assert d * q == 1.0;
    assert 2.0 * n / d == (2.0 * n) * q;
    assert (hi + lo) / d == (hi + lo) * q;
    assert lo * (2.0 * n * q) + -n * ((hi + lo) * q) == n * q * (lo - hi);
  }

  /** The x (or y) row at the high edge of the near plane. */
  lemma NearHigh(lo: real, hi: real, n: real)
    requires hi != lo
    ensures hi * (2.0 * n / (hi - lo)) + -n * ((hi + lo) / (hi - lo)) == n
  {
    var d := hi - lo;
    var q := 1.0 / d;
    assert d * q == 1.0;
    assert 2.0 * n / d == (2.0 * n) * q;
    assert (hi + lo) / d == (hi + lo) * q;
    assert hi * (2.0 * n * q) + -n * ((hi + lo) * q) == n * q * (hi - lo);
  }

  /** The depth row at the near and at the far plane. */
  lemma Depth(n: real, f: real)
    requires f != n
    ensures -n * (-(f + n) / (f - n)) + -(2.0 * f * n) / (f - n) == -n
    ensures -f * (-(f + n) / (f - n)) + -(2.0 * f * n) / (f - n) == f
  {
    var d := f - n;
    var q := 1.0 / d;
    assert d * q == 1.0;
    assert -(f + n) / d == -(f + n) * q;
    assert -(2.0 * f * n) / d == -(2.0 * f * n) * q;
    assert -n * (-(f + n) * q) + -(2.0 * f * n) * q == n * q * (n - f);
    assert -f * (-(f + n) * q) + -(2.0 * f * n) * q == f * q * (f - n);
  }

  /** For valid bounds, the near plane's lower-left corner (left, bottom, -n)
      lands on the clip-space corner (-1, -1, -1) after the division by
      w = n. */
  lemma FrustumNearLowCorner(left: real, right: real, bottom: real, top: real, n: real, f: real)
    requires !FrustumDegenerate(left, right, bottom, top, n, f)
    ensures MatVec(Frustum(left, right, bottom, top, n, f), [left, bottom, -n, 1.0], 4) == [-n, -n, -n, n]
  {
    var m := Frustum(left, right, bottom, top, n, f);
    var v := [left, bottom, -n, 1.0];
    var r := MatVec(m, v, 4);
    NearLow(left, right, n);
    NearLow(bottom, top, n);
    Depth(n, f);
    MatVec4(m, v, 0);
    MatVec4(m, v, 1);
    MatVec4(m, v, 2);
    MatVec4(m, v, 3);
    assert r[0] == -n && r[1] == -n && r[2] == -n && r[3] == n;
  }

  /** For valid bounds, the near plane's upper-right corner (right, top, -n)
      lands on the clip-space corner (1, 1, -1) after the division by
      w = n. */
  lemma FrustumNearHighCorner(left: real, right: real, bottom: real, top: real, n: real, f: real)
    requires !FrustumDegenerate(left, right, bottom, top, n, f)
    ensures MatVec(Frustum(left, right, bottom, top, n, f), [right, top, -n, 1.0], 4) == [n, n, -n, n]
  {
    var m := Frustum(left, right, bottom, top, n, f);
    var v := [right, top, -n, 1.0];
    var r := MatVec(m, v, 4);
    NearHigh(left, right, n);
    NearHigh(bottom, top, n);
    Depth(n, f);
    MatVec4(m, v, 0);
    MatVec4(m, v, 1);
    MatVec4(m, v, 2);
    MatVec4(m, v, 3);
    assert r[0] == n && r[1] == n && r[2] == -n && r[3] == n;
  }

  /** For valid bounds, a point on the far plane, at depth -f, lands on clip
      depth 1: its z and w are both f. */
  lemma FrustumFarDepth(left: real, right: real, bottom: real, top: real, n: real, f: real, x: real, y: real)
    requires !FrustumDegenerate(left, right, bottom, top, n, f)
    ensures MatVec(Frustum(left, right, bottom, top, n, f), [x, y, -f, 1.0], 4)[2] == f
    ensures MatVec(Frustum(left, right, bottom, top, n, f), [x, y, -f, 1.0], 4)[3] == f
  {
    var m := Frustum(left, right, bottom, top, n, f);
    var v := [x, y, -f, 1.0];
    Depth(n, f);
    MatVec4(m, v, 2);
    MatVec4(m, v, 3);
  }

  /** `operator^`: the entry-wise product of two matrices. */
  function EntryProduct(x: Mat, y: Mat, w: nat, h: nat): (r: Mat)
    requires IsMat(x, w, h) && IsMat(y, w, h)
    ensures IsMat(r, w, h)
    ensures forall i, j :: 0 <= i < w && 0 <= j < h ==> r[i][j] == x[i][j] * y[i][j]
  {
    seq(w, i requires 0 <= i < w => seq(h, j requires 0 <= j < h => x[i][j] * y[i][j]))
  }

  /** The all-ones matrix is the unit of the entry-wise product, and the
      product does not depend on the order of its factors. */
  lemma EntryProductLaws(x: Mat, y: Mat, w: nat, h: nat)
    requires IsMat(x, w, h) && IsMat(y, w, h)
    ensures EntryProduct(x, MatFill(w, h, 1.0), w, h) == x
    ensures EntryProduct(x, y, w, h) == EntryProduct(y, x, w, h)
  {
    var one := EntryProduct(x, MatFill(w, h, 1.0), w, h);
    forall i | 0 <= i < w
      ensures one[i] == x[i] && EntryProduct(x, y, w, h)[i] == EntryProduct(y, x, w, h)[i]
    {
      assert forall j :: 0 <= j < h ==> one[i][j] == x[i][j];
      assert forall j :: 0 <= j < h ==> EntryProduct(x, y, w, h)[i][j] == EntryProduct(y, x, w, h)[i][j];
    }
  }

  // ---------------------------------------------------------------------------
  // Interpolation
  // ---------------------------------------------------------------------------

  /** `mix(A, B, t)` as written: B + t·(B − A), which is the interpolation
      one step further along, at t + 1. */
  function MixAsWritten(a: Vec, b: Vec, t: real): (r: Vec)
    requires |a| == |b|
    ensures |r| == |a|
    ensures r == Mix(a, b, t + 1.0)
  {
    var r := Add(b, Scale(Sub(b, a), t));
    assert forall i :: 0 <= i < |a| ==> r[i] == Mix(a, b, t + 1.0)[i];
    r
  }

  /** As written, `mix` at t = 0 gives B instead of A, and at t = 1 gives
      2B − A instead of B. */
  lemma MixAsWrittenMissesEnds()
    ensures MixAsWritten([0.0], [1.0], 0.0) == [1.0] != [0.0]
    ensures MixAsWritten([0.0], [1.0], 1.0) == [2.0] != [1.0]
  {
    assert MixAsWritten([0.0], [1.0], 0.0)[0] == 1.0;
    assert MixAsWritten([0.0], [1.0], 1.0)[0] == 2.0;
  }

  /** Linear interpolation A + t·(B − A). */
  function Mix(a: Vec, b: Vec, t: real): (r: Vec)
    requires |a| == |b|
    ensures |r| == |a|
  {
    Add(a, Scale(Sub(b, a), t))
  }

  /** The interpolation starts at A and ends at B, and each component moves
      along the segment between the two. */
  lemma MixEnds(a: Vec, b: Vec, t: real)
    requires |a| == |b|
    ensures Mix(a, b, 0.0) == a && Mix(a, b, 1.0) == b
    ensures 0.0 <= t <= 1.0 ==> forall n :: 0 <= n < |a| && a[n] <= b[n] ==> a[n] <= Mix(a, b, t)[n] <= b[n]
  {
    assert forall n :: 0 <= n < |a| ==> Mix(a, b, 0.0)[n] == a[n];
    assert forall n :: 0 <= n < |a| ==> Mix(a, b, 1.0)[n] == b[n];
    if 0.0 <= t <= 1.0 {
      forall n | 0 <= n < |a| && a[n] <= b[n]
        ensures a[n] <= Mix(a, b, t)[n] <= b[n]
      {
        BetweenEnds(a[n], b[n], t);
      }
    }
  }

  /** a + (b − a)·t lies between a and b for t in [0, 1]. */
  lemma BetweenEnds(x: real, y: real, t: real)
    requires x <= y && 0.0 <= t <= 1.0
    ensures x <= x + (y - x) * t <= y
  {
    var d := y - x;
    MulNonnegative(d, t);
    MulNonnegative(d, 1.0 - t);
    assert d * (1.0 - t) == d - d * t;
  }

  /** The product of two nonnegative numbers is nonnegative. */
  lemma MulNonnegative(p: real, q: real)
    requires p >= 0.0 && q >= 0.0
    ensures p * q >= 0.0
  {
  }

  /** `mix(A, B, t)` with a vector of weights, as written:
      B + t·(B − A) component by component, so each component is the
      interpolation at its weight plus one. */
  function MixEachAsWritten(a: Vec, b: Vec, t: Vec): (r: Vec)
    requires |a| == |b| == |t|
    ensures |r| == |a|
    ensures forall i :: 0 <= i < |a| ==> r[i] == Mix(a, b, t[i] + 1.0)[i]
  {
    Add(b, Mul(t, Sub(b, a)))
  }

  /** As written, a weight of 0 gives B. */
  lemma MixEachAsWrittenMissesStart()
    ensures MixEachAsWritten([0.0], [1.0], [0.0]) == [1.0] != [0.0]
  {
    assert MixEachAsWritten([0.0], [1.0], [0.0])[0] == 1.0;
  }

  /** Linear interpolation with one weight per component. */
  function MixEach(a: Vec, b: Vec, t: Vec): (r: Vec)
    requires |a| == |b| == |t|
    ensures |r| == |a|
  {
    Add(a, Mul(t, Sub(b, a)))
  }

  /** With every weight equal to s, the per-component interpolation is the
      interpolation by s; so it too runs from A to B. */
  lemma MixEachUniform(a: Vec, b: Vec, s: real)
    requires |a| == |b|
    ensures MixEach(a, b, seq(|a|, _ => s)) == Mix(a, b, s)
  {
    assert forall n :: 0 <= n < |a| ==> MixEach(a, b, seq(|a|, _ => s))[n] == Mix(a, b, s)[n];
  }

  // ---------------------------------------------------------------------------
  // random<unsigned int>
  // ---------------------------------------------------------------------------

  const SeedStart: bv32 := 0x13371337
  const OneBits: bv32 := 0x3F800000

  /** The tempering of a seed: the xor-shifted seed's top 23 bits, under the
      exponent bits of the float 1.0. The result is therefore the bit
      pattern of a float in [1, 2). */
  function Temper(seed: bv32): (r: bv32)
    ensures OneBits <= r <= 0x3FFFFFFF
    ensures r & OneBits == OneBits
  {
    var tmp := seed ^ (seed >> 4) ^ (seed << 15);
    (tmp >> 9) | OneBits
  }

  /** `random<unsigned int>`: the function-static seed, held as explicit
      state. */
  class Random {
    var seed: bv32

    constructor()
      ensures seed == SeedStart
    {
      seed := SeedStart;
    }

    /** One draw: the seed is multiplied by 16807 modulo 2^32, and the
        result is the tempered new seed. */
    method Next() returns (r: bv32)
      modifies this
      ensures seed == old(seed) * 16807
      ensures r == Temper(seed)
      ensures OneBits <= r <= 0x3FFFFFFF
    {
      seed := seed * 16807;
      r := Temper(seed);
    }
  }
}
