/** The vector and matrix templates, over exact reals: `vecN` as the
    sequence of its components, `matNM` as the sequence of its columns, the
    element-wise operators, dot, square, cross and pow, and the matrix
    transpose, identity, product and size conversions. The in-place
    operators of `vecN` work on a class holding the component array. */
module TVec {

  /** The components of a vecN, in order. */
  type Vec = seq<real>

  /** A matNM stored column by column, as the source stores it: `m[c][r]` is
      row r of column c. */
  type Mat = seq<Vec>

  // ---------------------------------------------------------------------------
  // Element-wise operators
  // ---------------------------------------------------------------------------

  /** `operator+`. */
  function Add(a: Vec, b: Vec): (r: Vec)
    requires |a| == |b|
    ensures |r| == |a|
  {
    seq(|a|, n requires 0 <= n < |a| => a[n] + b[n])
  }

  /** `operator-` (binary). */
  function Sub(a: Vec, b: Vec): (r: Vec)
    requires |a| == |b|
    ensures |r| == |a|
  {
    seq(|a|, n requires 0 <= n < |a| => a[n] - b[n])
  }

  /** `operator-` (unary). */
  function Neg(a: Vec): (r: Vec)
    ensures |r| == |a|
  {
    seq(|a|, n requires 0 <= n < |a| => -a[n])
  }

  /** `operator*` of two vectors: the component-wise product. */
  function Mul(a: Vec, b: Vec): (r: Vec)
    requires |a| == |b|
    ensures |r| == |a|
  {
    seq(|a|, n requires 0 <= n < |a| => a[n] * b[n])
  }

  /** `operator*` by a scalar, on either side. */
  function Scale(a: Vec, s: real): (r: Vec)
    ensures |r| == |a|
  {
    seq(|a|, n requires 0 <= n < |a| => a[n] * s)
  }

  /** `operator/` of two vectors: the component-wise quotient. */
  function Div(a: Vec, b: Vec): (r: Vec)
    requires |a| == |b| && forall n :: 0 <= n < |b| ==> b[n] != 0.0
    ensures |r| == |a|
  {
    seq(|a|, n requires 0 <= n < |a| => a[n] / b[n])
  }

  /** `operator/` by a scalar. */
  function DivScalar(a: Vec, s: real): (r: Vec)
    requires s != 0.0
    ensures |r| == |a|
  {
    seq(|a|, n requires 0 <= n < |a| => a[n] / s)
  }

  /** Subtraction undoes addition. */
  lemma SubUndoesAdd(a: Vec, b: Vec)
    requires |a| == |b|
    ensures Sub(Add(a, b), b) == a
  {
    assert forall n :: 0 <= n < |a| ==> Sub(Add(a, b), b)[n] == a[n];
  }

  /** Subtracting is adding the negation, and negation is an involution. */
  lemma SubIsAddNeg(a: Vec, b: Vec)
    requires |a| == |b|
    ensures Sub(a, b) == Add(a, Neg(b))
    ensures Neg(Neg(a)) == a
  {
    assert forall n :: 0 <= n < |a| ==> Sub(a, b)[n] == Add(a, Neg(b))[n];
    assert forall n :: 0 <= n < |a| ==> Neg(Neg(a))[n] == a[n];
  }

  /** Division undoes the component-wise and the scalar product. */
  lemma DivUndoesMul(a: Vec, b: Vec, s: real)
    requires |a| == |b| && s != 0.0 && forall n :: 0 <= n < |b| ==> b[n] != 0.0
    ensures Div(Mul(a, b), b) == a
    ensures DivScalar(Scale(a, s), s) == a
  {
    assert forall n :: 0 <= n < |a| ==> Div(Mul(a, b), b)[n] == a[n];
    assert forall n :: 0 <= n < |a| ==> DivScalar(Scale(a, s), s)[n] == a[n];
  }

  // ---------------------------------------------------------------------------
  // The in-place operators of vecN
  // ---------------------------------------------------------------------------

  /** A vecN object: its component array, updated in place by assignment and
      the compound operators. */
  class VecN {
    const data: array<real>

    /** The default constructor: every component zero. */
    constructor(len: nat)
      ensures fresh(data) && data.Length == len
      ensures forall n :: 0 <= n < len ==> data[n] == 0.0
    {
      data := new real[len](_ => 0.0);
    }

    /** `vecN(T s)`: every component s. */
    constructor Fill(len: nat, s: real)
      ensures fresh(data) && data.Length == len
      ensures forall n :: 0 <= n < len ==> data[n] == s
    {
      var a := new real[len];
      var n := 0;
      while n < len
        invariant 0 <= n <= len
        invariant forall k :: 0 <= k < n ==> a[k] == s
      {
        a[n] := s;
        n := n + 1;
      }
      data := a;
    }

    /** The copy constructor and the converting constructor: the components
        of `that`. */
    constructor Copy(that: Vec)
      ensures fresh(data) && data[..] == that
    {
      var a := new real[|that|];
      var n := 0;
      while n < |that|
        invariant 0 <= n <= |that|
        invariant forall k :: 0 <= k < n ==> a[k] == that[k]
      {
        a[n] := that[n];
        n := n + 1;
      }
      data := a;
    }

    /** `reset(ptr)`: the first `len` values read from `ptr`. */
    method Reset(ptr: seq<real>)
      requires |ptr| >= data.Length
      modifies data
      ensures data[..] == ptr[..data.Length]
    {
      var n := 0;
      while n < data.Length
        invariant 0 <= n <= data.Length
        invariant forall k :: 0 <= k < n ==> data[k] == ptr[k]
      {
        data[n] := ptr[n];
        n := n + 1;
      }
    }

    /** `assign`: copies a vector of the same length. */
    method Assign(that: Vec)
      requires |that| == data.Length
      modifies data
      ensures data[..] == that
    {
      Reset(that);
    }

    /** `operator=(const T&)`: every component s. */
    method AssignScalar(s: real)
      modifies data
      ensures forall n :: 0 <= n < data.Length ==> data[n] == s
    {
      var n := 0;
      while n < data.Length
        invariant 0 <= n <= data.Length
        invariant forall k :: 0 <= k < n ==> data[k] == s
      {
        data[n] := s;
        n := n + 1;
      }
    }

    /** `operator=` from a vector of another length m: the first min(len, m)
        components are copied and the others stay as they were. */
    method AssignPrefix(that: Vec)
      modifies data
      ensures
        var sz := if data.Length < |that| then data.Length else |that|;
        data[..] == that[..sz] + old(data[..])[sz..]
    {
      var sz := if data.Length < |that| then data.Length else |that|;
      var i := 0;
      while i < sz
        invariant 0 <= i <= sz
        invariant forall k :: 0 <= k < i ==> data[k] == that[k]
        invariant forall k :: i <= k < data.Length ==> data[k] == old(data[k])
      {
        data[i] := that[i];
        i := i + 1;
      }
      assert data[..] == that[..sz] + old(data[..])[sz..];
    }

    /** `operator+=`. */
    method AddAssign(that: Vec)
      requires |that| == data.Length
      modifies data
      ensures data[..] == Add(old(data[..]), that)
    {
      Assign(Add(data[..], that));
    }

    /** `operator-=`. */
    method SubAssign(that: Vec)
      requires |that| == data.Length
      modifies data
      ensures data[..] == Sub(old(data[..]), that)
    {
      Assign(Sub(data[..], that));
    }

    /** `operator*=` by a vector. */
    method MulAssign(that: Vec)
      requires |that| == data.Length
      modifies data
      ensures data[..] == Mul(old(data[..]), that)
    {
      Assign(Mul(data[..], that));
    }

    /** `operator*=` by a scalar. */
    method ScaleAssign(s: real)
      modifies data
      ensures data[..] == Scale(old(data[..]), s)
    {
      Assign(Scale(data[..], s));
    }

    /** `operator/=` by a vector. */
    method DivAssign(that: Vec)
      requires |that| == data.Length && forall n :: 0 <= n < |that| ==> that[n] != 0.0
      modifies data
      ensures data[..] == Div(old(data[..]), that)
    {
      Assign(Div(data[..], that));
    }

    /** `operator/=` by a scalar. */
    method DivScalarAssign(s: real)
      requires s != 0.0
      modifies data
      ensures data[..] == DivScalar(old(data[..]), s)
    {
      Assign(DivScalar(data[..], s));
    }
  }

  // ---------------------------------------------------------------------------
  // Sums over components
  // ---------------------------------------------------------------------------

  /** The sum of the components. */
  function Sum(v: Vec): real
  {
    if v == [] then 0.0 else Sum(v[..|v| - 1]) + v[|v| - 1]
  }

  /** Σ a[n]·b[n]. */
  function Dot(a: Vec, b: Vec): real
    requires |a| == |b|
  {
    if a == [] then 0.0 else Dot(a[..|a| - 1], b[..|b| - 1]) + a[|a| - 1] * b[|b| - 1]
  }

  /** Dot distributes over the sum on the left. */
  lemma {:induction false} DotAddLeft(a: Vec, b: Vec, c: Vec)
    requires |a| == |b| == |c|
    ensures Dot(Add(a, b), c) == Dot(a, c) + Dot(b, c)
  {
    if a != [] {
      var n := |a| - 1;
      assert Add(a, b)[..n] == Add(a[..n], b[..n]);
      DotAddLeft(a[..n], b[..n], c[..n]);
    }
  }

  /** Dot is symmetric. */
  lemma {:induction false} DotSymmetric(a: Vec, b: Vec)
    requires |a| == |b|
    ensures Dot(a, b) == Dot(b, a)
  {
    if a != [] {
      DotSymmetric(a[..|a| - 1], b[..|b| - 1]);
    }
  }

  /** Dot of a vector with itself is never negative, and is zero for the
      zero vector. */
  lemma {:induction false} DotSelf(v: Vec)
    ensures Dot(v, v) >= 0.0
    ensures (forall n :: 0 <= n < |v| ==> v[n] == 0.0) ==> Dot(v, v) == 0.0
  {
    if v != [] {
      var front := v[..|v| - 1];
      DotSelf(front);
      var x := v[|v| - 1];
      SquareNonnegative(x);
      assert Dot(v, v) == Dot(front, front) + x * x;
      assert forall n :: 0 <= n < |front| ==> front[n] == v[n];
      if x == 0.0 {
        SquareOfZero(x);
      }
    }
  }

  /** A square is never negative. */
  lemma SquareNonnegative(x: real)
    ensures x * x >= 0.0
  {
    if x < 0.0 {
      var y := -x;
      assert x * x == y * y;
    }
  }

  /** The square of zero is zero. */
  lemma SquareOfZero(x: real)
    requires x == 0.0
    ensures x * x == 0.0
  {
  }

  /** Dot of two vectors extended by one component each. */
  lemma DotSnoc(a: Vec, b: Vec, x: real, y: real)
    requires |a| == |b|
    ensures Dot(a + [x], b + [y]) == Dot(a, b) + x * y
  {
    var a2, b2 := a + [x], b + [y];
    assert a2 != [] && a2[..|a2| - 1] == a && b2[..|b2| - 1] == b;
    assert a2[|a2| - 1] == x && b2[|b2| - 1] == y;
  }

  /** `dot`: the loop accumulates Σ a[n]·b[n]. */
  method ComputeDot(a: Vec, b: Vec) returns (total: real)
    requires |a| == |b|
    ensures total == Dot(a, b)
  {
    total := 0.0;
    var n := 0;
    while n < |a|
      invariant 0 <= n <= |a|
      invariant total == Dot(a[..n], b[..n])
    {
      DotSnoc(a[..n], b[..n], a[n], b[n]);
      assert a[..n + 1] == a[..n] + [a[n]] && b[..n + 1] == b[..n] + [b[n]];
      total := total + a[n] * b[n];
      n := n + 1;
    }
    assert a[..n] == a && b[..n] == b;
  }

  /** `square`: the loop accumulates Σ v[i]·v[i], the dot of v with
      itself. */
  method ComputeSquare(v: Vec) returns (result: real)
    ensures result == Dot(v, v)
    ensures result >= 0.0
  {
    result := 0.0;
    var i := 0;
    while i < |v|
      invariant 0 <= i <= |v|
      invariant result == Dot(v[..i], v[..i])
    {
      DotSnoc(v[..i], v[..i], v[i], v[i]);
      assert v[..i + 1] == v[..i] + [v[i]];
      result := result + v[i] * v[i];
      i := i + 1;
    }
    assert v[..i] == v;
    DotSelf(v);
  }

  /** `cross` of two 3-vectors. */
  function Cross(a: Vec, b: Vec): (r: Vec)
    requires |a| == 3 && |b| == 3
    ensures |r| == 3
  {
    [a[1] * b[2] - b[1] * a[2],
     a[2] * b[0] - b[2] * a[0],
     a[0] * b[1] - b[0] * a[1]]
  }

  /** Dot of two 3-vectors, written out. */
  function Dot3Sum(a: Vec, b: Vec): real
    requires |a| == 3 && |b| == 3
  {
    a[0] * b[0] + a[1] * b[1] + a[2] * b[2]
  }

  /** For 3-vectors, dot is the written-out sum. */
  lemma Dot3(a: Vec, b: Vec)
    requires |a| == 3 && |b| == 3
    ensures Dot(a, b) == Dot3Sum(a, b)
  {
    var a2, b2 := a[..2], b[..2];
    var a1, b1 := a2[..1], b2[..1];
    assert a1[..0] == [] && b1[..0] == [];
    assert Dot(a1, b1) == a[0] * b[0];
    assert Dot(a2, b2) == Dot(a1, b1) + a[1] * b[1];
    assert Dot(a, b) == Dot(a2, b2) + a[2] * b[2];
  }

  /** With u × v written out, (u × v)·u and (u × v)·v vanish. */
  lemma CrossTermsCancel(u0: real, u1: real, u2: real, v0: real, v1: real, v2: real)
    ensures (u1 * v2 - v1 * u2) * u0 + (u2 * v0 - v2 * u0) * u1 + (u0 * v1 - v0 * u1) * u2 == 0.0
    ensures (u1 * v2 - v1 * u2) * v0 + (u2 * v0 - v2 * u0) * v1 + (u0 * v1 - v0 * u1) * v2 == 0.0
  {
  }

  /** The components of a × b dotted with a, and with b, vanish. */
  lemma CrossDots(a: Vec, b: Vec)
    requires |a| == 3 && |b| == 3
    ensures Dot3Sum(Cross(a, b), a) == 0.0 && Dot3Sum(Cross(a, b), b) == 0.0
  {
    CrossTermsCancel(a[0], a[1], a[2], b[0], b[1], b[2]);
  }

  /** The cross product is orthogonal to its first factor. */
  lemma CrossOrthogonalLeft(a: Vec, b: Vec)
    requires |a| == 3 && |b| == 3
    ensures Dot(Cross(a, b), a) == 0.0
  {
    CrossDots(a, b);
    Dot3(Cross(a, b), a);
  }

  /** The cross product is orthogonal to its second factor. */
  lemma CrossOrthogonalRight(a: Vec, b: Vec)
    requires |a| == 3 && |b| == 3
    ensures Dot(Cross(a, b), b) == 0.0
  {
    CrossDots(a, b);
    Dot3(Cross(a, b), b);
  }

  /** Swapping the factors negates the cross product. */
  lemma CrossAnticommutative(a: Vec, b: Vec)
    requires |a| == 3 && |b| == 3
    ensures Cross(b, a) == Neg(Cross(a, b))
  {
  }

  /** x to the power k. */
  function Power(x: real, k: nat): real
  {
    if k == 0 then 1.0 else Power(x, k - 1) * x
  }

  /** What `pow` sums for each component: v[i] raised to num, where a num
      below 1 leaves v[i] as it is. */
  function PowSum(v: Vec, num: int): real
  {
    if v == [] then 0.0
    else PowSum(v[..|v| - 1], num) + Power(v[|v| - 1], if num >= 1 then num else 1)
  }

  /** `pow(v, 2)` is the square of v, and `pow(v, num)` for num ≤ 1 is the
      sum of the components. */
  lemma {:induction false} PowSumCases(v: Vec, num: int)
    ensures PowSum(v, 2) == Dot(v, v)
    ensures num <= 1 ==> PowSum(v, num) == Sum(v)
  {
    if v != [] {
      PowSumCases(v[..|v| - 1], num);
      var x := v[|v| - 1];
      assert Power(x, 2) == x * x by {
        assert Power(x, 1) == x;
      }
      assert Power(x, 1) == x;
    }
  }

  /** `pow`: for each component, multiply it into itself num - 1 times, and
      add up the results. */
  method ComputePow(v: Vec, num: int) returns (result: real)
    ensures result == PowSum(v, num)
  {
    result := 0.0;
    var i := 0;
    while i < |v|
      invariant 0 <= i <= |v|
      invariant result == PowSum(v[..i], num)
    {
      var res := v[i];
      var j := 1;
      while j < num
        invariant 1 <= j && (num >= 1 ==> j <= num) && (num < 1 ==> j == 1)
        invariant res == Power(v[i], j)
      {
        res := res * v[i];
        j := j + 1;
      }
      assert j == if num >= 1 then num else 1;
      assert v[..i + 1][..i] == v[..i];
      result := result + res;
      i := i + 1;
    }
    assert v[..i] == v;
  }

  // ---------------------------------------------------------------------------
  // Matrices
  // ---------------------------------------------------------------------------

  /** `m` has w columns of h rows. */
  predicate IsMat(m: Mat, w: nat, h: nat)
  {
    |m| == w && forall c :: 0 <= c < w ==> |m[c]| == h
  }

  /** `matNM(T f)`: every entry f. */
  function MatFill(w: nat, h: nat, f: real): (r: Mat)
    ensures IsMat(r, w, h) && forall c, k :: 0 <= c < w && 0 <= k < h ==> r[c][k] == f
  {
    seq(w, _ => seq(h, _ => f))
  }

  /** `transpose`: the h×w matrix with `result[x][y] == data[y][x]`. */
  function Transpose(m: Mat, w: nat, h: nat): (r: Mat)
    requires IsMat(m, w, h)
    ensures IsMat(r, h, w)
  {
    seq(h, x requires 0 <= x < h => seq(w, y requires 0 <= y < w => m[y][x]))
  }

  /** Transposing twice gives the matrix back. */
  lemma TransposeInvolution(m: Mat, w: nat, h: nat)
    requires IsMat(m, w, h)
    ensures Transpose(Transpose(m, w, h), h, w) == m
  {
    var t := Transpose(Transpose(m, w, h), h, w);
    forall c | 0 <= c < w
      ensures t[c] == m[c]
    {
      assert forall k :: 0 <= k < h ==> t[c][k] == m[c][k];
    }
  }

  /** `identity`: 1 on the diagonal, 0 elsewhere. */
  function Identity(n: nat): (r: Mat)
    ensures IsMat(r, n, n)
    ensures forall c, k :: 0 <= c < n && 0 <= k < n ==> r[c][k] == if c == k then 1.0 else 0.0
  {
    seq(n, c => seq(n, k => if c == k then 1.0 else 0.0))
  }

  /** Row i of a matrix, read across its columns. */
  function Row(m: Mat, i: nat): (r: Vec)
    requires forall c :: 0 <= c < |m| ==> i < |m[c]|
    ensures |r| == |m| && forall c :: 0 <= c < |m| ==> r[c] == m[c][i]
  {
    seq(|m|, c requires 0 <= c < |m| => m[c][i])
  }

  /** The product `this * that` of two n×n matrices:
      `result[j][i] == Σ_k data[k][i]·that[j][k]`. */
  function MatMul(a: Mat, b: Mat, n: nat): (r: Mat)
    requires IsMat(a, n, n) && IsMat(b, n, n)
    ensures IsMat(r, n, n)
    ensures forall j, i :: 0 <= j < n && 0 <= i < n ==> r[j][i] == Dot(Row(a, i), b[j])
  {
    seq(n, j requires 0 <= j < n => seq(n, i requires 0 <= i < n => Dot(Row(a, i), b[j])))
  }

  /** The unit vector along axis i. */
  function Unit(n: nat, i: nat): (r: Vec)
    ensures |r| == n
  {
    seq(n, k => if k == i then 1.0 else 0.0)
  }

  /** Dot with a unit vector picks one component, from either side. */
  lemma {:induction false} DotUnit(n: nat, i: nat, v: Vec)
    requires i < n && |v| == n
    ensures Dot(Unit(n, i), v) == v[i] && Dot(v, Unit(n, i)) == v[i]
  {
    var u := Unit(n, i);
    if i < n - 1 {
      assert u[..n - 1] == Unit(n - 1, i);
      DotUnit(n - 1, i, v[..n - 1]);
    } else {
      assert u[..n - 1] == seq(n - 1, _ => 0.0);
      DotZero(v[..n - 1]);
    }
    DotSymmetric(u, v);
  }

  /** Dot with the zero vector is zero. */
  lemma {:induction false} DotZero(v: Vec)
    ensures Dot(seq(|v|, _ => 0.0), v) == 0.0
  {
    if v != [] {
      assert seq(|v|, _ => 0.0)[..|v| - 1] == seq(|v| - 1, _ => 0.0);
      DotZero(v[..|v| - 1]);
    }
  }

  /** The identity is a left and a right unit of the product. */
  lemma IdentityUnit(a: Mat, n: nat)
    requires IsMat(a, n, n)
    ensures MatMul(Identity(n), a, n) == a
    ensures MatMul(a, Identity(n), n) == a
  {
    var id := Identity(n);
    var l := MatMul(id, a, n);
    var r := MatMul(a, id, n);
    forall j | 0 <= j < n
      ensures l[j] == a[j] && r[j] == a[j]
    {
      forall i | 0 <= i < n
        ensures l[j][i] == a[j][i] && r[j][i] == a[j][i]
      {
        assert Row(id, i) == Unit(n, i);
        assert id[j] == Unit(n, j);
        DotUnit(n, i, a[j]);
        DotUnit(n, j, Row(a, i));
      }
    }
  }

  /** The transpose of a product is the product of the transposes, in the
      other order. */
  lemma TransposeProduct(a: Mat, b: Mat, n: nat)
    requires IsMat(a, n, n) && IsMat(b, n, n)
    ensures Transpose(MatMul(a, b, n), n, n) == MatMul(Transpose(b, n, n), Transpose(a, n, n), n)
  {
    var l := Transpose(MatMul(a, b, n), n, n);
    var r := MatMul(Transpose(b, n, n), Transpose(a, n, n), n);
    forall j | 0 <= j < n
      ensures l[j] == r[j]
    {
      forall i | 0 <= i < n
        ensures l[j][i] == r[j][i]
      {
        assert Row(Transpose(b, n, n), i) == b[i];
        assert Transpose(a, n, n)[j] == Row(a, j);
        DotSymmetric(Row(a, j), b[i]);
      }
    }
  }

  /** The inner loop of the product: Σ_k a[k][i]·b[j][k]. */
  method ProductEntry(a: Mat, b: Mat, n: nat, j: nat, i: nat) returns (sum: real)
    requires IsMat(a, n, n) && IsMat(b, n, n) && j < n && i < n
    ensures sum == Dot(Row(a, i), b[j])
  {
    ghost var row := Row(a, i);
    sum := 0.0;
    var k := 0;
    while k < n
      invariant 0 <= k <= n
      invariant sum == Dot(row[..k], b[j][..k])
    {
      DotSnoc(row[..k], b[j][..k], a[k][i], b[j][k]);
      assert row[..k + 1] == row[..k] + [a[k][i]] && b[j][..k + 1] == b[j][..k] + [b[j][k]];
      sum := sum + a[k][i] * b[j][k];
      k := k + 1;
    }
    assert row[..k] == row && b[j][..k] == b[j];
  }

  /** `operator*` of two matrices: a zero matrix filled entry by entry. */
  method ComputeProduct(a: Mat, b: Mat, n: nat) returns (result: Mat)
    requires IsMat(a, n, n) && IsMat(b, n, n)
    ensures result == MatMul(a, b, n)
  {
    result := MatFill(n, n, 0.0);
    var j := 0;
    while j < n
      invariant 0 <= j <= n && IsMat(result, n, n)
      invariant forall c :: 0 <= c < j ==> result[c] == MatMul(a, b, n)[c]
    {
      var i := 0;
      while i < n
        invariant 0 <= i <= n && IsMat(result, n, n)
        invariant forall c :: 0 <= c < j ==> result[c] == MatMul(a, b, n)[c]
        invariant forall k :: 0 <= k < i ==> result[j][k] == MatMul(a, b, n)[j][k]
      {
        var sum := ProductEntry(a, b, n, j, i);
        result := result[j := result[j][i := sum]];
        i := i + 1;
      }
      assert result[j] == MatMul(a, b, n)[j];
      j := j + 1;
    }
  }

  /** The size-converting constructor: a w2×h2 matrix holding the entries
      of the w×h matrix `m` where both have them, and zero elsewhere. */
  function Resize(m: Mat, w: nat, h: nat, w2: nat, h2: nat): (r: Mat)
    requires IsMat(m, w, h)
    ensures IsMat(r, w2, h2)
    ensures forall c, k :: 0 <= c < w2 && 0 <= k < h2 ==>
      r[c][k] == if c < w && k < h then m[c][k] else 0.0
  {
    seq(w2, c requires 0 <= c < w2 =>
      seq(h2, k requires 0 <= k < h2 => if c < w && k < h then m[c][k] else 0.0))
  }

  /** Growing a matrix and cutting it back to its size gives it back. */
  lemma ResizeRoundTrip(m: Mat, w: nat, h: nat, w2: nat, h2: nat)
    requires IsMat(m, w, h) && w <= w2 && h <= h2
    ensures Resize(Resize(m, w, h, w2, h2), w2, h2, w, h) == m
  {
    var r := Resize(Resize(m, w, h, w2, h2), w2, h2, w, h);
    forall c | 0 <= c < w
      ensures r[c] == m[c]
    {
      assert forall k :: 0 <= k < h ==> r[c][k] == m[c][k];
    }
  }

  /** `Tmat4(Tmat3)`: the 3×3 block, with row and column 3 set to
      (0, 0, 0, 1). */
  function Mat4Of3(m: Mat): (r: Mat)
    requires IsMat(m, 3, 3)
    ensures IsMat(r, 4, 4)
    ensures forall c, k :: 0 <= c < 3 && 0 <= k < 3 ==> r[c][k] == m[c][k]
    ensures forall k :: 0 <= k < 3 ==> r[k][3] == 0.0 && r[3][k] == 0.0
    ensures r[3][3] == 1.0
  {
    var g := Resize(m, 3, 3, 4, 4);
    [g[0][3 := 0.0], g[1][3 := 0.0], g[2][3 := 0.0], [0.0, 0.0, 0.0, 1.0]]
  }

  /** Embedding the 3×3 identity gives the 4×4 identity. */
  lemma Mat4Of3Identity()
    ensures Mat4Of3(Identity(3)) == Identity(4)
  {
    var l := Mat4Of3(Identity(3));
    var r := Identity(4);
    forall c | 0 <= c < 4
      ensures l[c] == r[c]
    {
      assert forall k :: 0 <= k < 4 ==> l[c][k] == r[c][k];
    }
  }

  /** Dot of two 4-vectors whose last components are zero is the dot of
      their first three. */
  lemma Dot4Zero(a: Vec, b: Vec)
    requires |a| == 4 && |b| == 4 && a[3] == 0.0
    ensures Dot(a, b) == Dot(a[..3], b[..3])
  {
  }

  /** The embedding respects the product. */
  lemma Mat4Of3Product(a: Mat, b: Mat)
    requires IsMat(a, 3, 3) && IsMat(b, 3, 3)
    ensures Mat4Of3(MatMul(a, b, 3)) == MatMul(Mat4Of3(a), Mat4Of3(b), 4)
  {
    var a4, b4 := Mat4Of3(a), Mat4Of3(b);
    var l := Mat4Of3(MatMul(a, b, 3));
    var r := MatMul(a4, b4, 4);
    forall j | 0 <= j < 4
      ensures l[j] == r[j]
    {
      forall i | 0 <= i < 4
        ensures l[j][i] == r[j][i]
      {
        var row := Row(a4, i);
        if i < 3 && j < 3 {
          assert row[..3] == Row(a, i);
          assert b4[j][..3] == b[j];
          Dot4Zero(row, b4[j]);
        } else if i < 3 {
          assert b4[j] == Unit(4, 3);
          DotUnit(4, 3, row);
        } else {
          assert row == Unit(4, 3) by {
            assert forall c :: 0 <= c < 4 ==> row[c] == a4[c][3];
          }
          DotUnit(4, 3, b4[j]);
        }
      }
    }
  }
}
