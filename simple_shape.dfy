/** The UV sphere: a grid of 64 columns by 33 rows of vertices, normals and
    texture coordinates, and the index list of 32 triangle strips, one per
    band between two vertex rows. */
module SimpleShape {
  import opened TVec

  const XSegs: nat := 64
  const YSegs: nat := 32

  /** x_segs · (y_segs + 1) grid points. */
  const VertexCount: nat := XSegs * (YSegs + 1)

  /** (x_segs + 1) · (y_segs << 1) index slots. */
  const IndexCount: nat := (XSegs + 1) * (YSegs * 2)

  /** Each band writes 2 · (x_segs + 1) slots. */
  const RowLength: nat := 2 * (XSegs + 1)

  /** The grid column and row of the k-th vertex pushed. */
  function Column(k: nat): nat { k % XSegs }
  function GridRow(k: nat): nat { k / XSegs }

  /** The texture coordinate of the k-th vertex: (x / x_segs, y / y_segs). */
  function UV(k: nat): (r: Vec)
    ensures |r| == 2
  {
    [Column(k) as real / XSegs as real, GridRow(k) as real / YSegs as real]
  }

  /** The point on the sphere (radius applied, centre not) for a texture
      coordinate, as a 3-vector. */
  function Point(surface: (real, real) -> (real, real, real), uv: Vec): (r: Vec)
    requires |uv| == 2
    ensures |r| == 3
  {
    var p := surface(uv[0], uv[1]);
    [p.0, p.1, p.2]
  }

  /** The index written to slot j of band y: slot 2x holds the vertex of
      column x on the band's lower row (y · x_segs + x + x_segs), slot 2x + 1
      the one on its upper row (y · x_segs + x), and the last two slots
      repeat column 0 to close the ring. */
  function BandIndex(y: nat, j: nat): nat
  {
    if j < 2 * XSegs then
      if j % 2 == 0 then y * XSegs + j / 2 + XSegs else y * XSegs + j / 2
    else if j == 2 * XSegs then y * XSegs + XSegs
    else y * XSegs
  }

  /** The index written to slot s, which lies in band s / RowLength. */
  function IndexAt(s: nat): nat
  {
    BandIndex(s / RowLength, s % RowLength)
  }

  /** Every index names one of the grid's vertices, and so fits in a
      uint16. */
  lemma IndexInRange(s: nat)
    requires s < IndexCount
    ensures IndexAt(s) < VertexCount && IndexAt(s) < 0x1_0000
  {
    var y, j := s / RowLength, s % RowLength;
    assert y < YSegs;
    assert y * XSegs + XSegs <= (YSegs - 1) * XSegs + XSegs;
  }

  /** The slots of band y are [y · RowLength, (y + 1) · RowLength): slot 2x
      and 2x + 1 pair column x of the lower and upper row, and the band
      closes on column 0. Bands therefore never overlap and together cover
      every slot. */
  lemma BandSlots(y: nat, x: nat)
    requires y < YSegs && x < XSegs
    ensures IndexAt(y * RowLength + 2 * x) == y * XSegs + x + XSegs
    ensures IndexAt(y * RowLength + 2 * x + 1) == y * XSegs + x
    ensures IndexAt(y * RowLength + 2 * XSegs) == y * XSegs + XSegs
    ensures IndexAt(y * RowLength + 2 * XSegs + 1) == y * XSegs
  {
    SlotOfBand(y, 2 * x);
    SlotOfBand(y, 2 * x + 1);
    SlotOfBand(y, 2 * XSegs);
    SlotOfBand(y, 2 * XSegs + 1);
  }

  /** Slot j of band y decomposes back into y and j. */
  lemma SlotOfBand(y: nat, j: nat)
    requires j < RowLength
    ensures (y * RowLength + j) / RowLength == y && (y * RowLength + j) % RowLength == j
  {
  }

  /** Vertex y · x_segs + x sits in column x of grid row y. */
  lemma GridPoint(y: nat, x: nat)
    requires x < XSegs
    ensures UV(y * XSegs + x) == [x as real / XSegs as real, y as real / YSegs as real]
  {
    assert Column(y * XSegs + x) == x && GridRow(y * XSegs + x) == y;
  }

  /** `Sphere`: a centre, a radius and the arrays `build` fills. */
  class Sphere {
    const pos: Vec
    const rad: real
    var verts: seq<Vec>
    var norms: seq<Vec>
    var uvs: seq<Vec>
    var indices: array<int>

    constructor(pos: Vec, rad: real)
      requires |pos| == 3
      ensures this.pos == pos && this.rad == rad
      ensures verts == [] && norms == [] && uvs == [] && indices.Length == 0
    {
      this.pos, this.rad := pos, rad;
      verts, norms, uvs := [], [], [];
      indices := new int[0];
    }

    /** `build`: pushes the 2112 grid points, then writes the 4160 strip
        indices. `surface` is the trigonometric position (radius applied) of a
        texture coordinate. */
    method Build(surface: (real, real) -> (real, real, real))
      requires |pos| == 3
      modifies this`verts, this`norms, this`uvs, this`indices
      ensures |verts| == |old(verts)| + VertexCount && verts[..|old(verts)|] == old(verts)
      ensures |norms| == |old(norms)| + VertexCount && norms[..|old(norms)|] == old(norms)
      ensures |uvs| == |old(uvs)| + VertexCount && uvs[..|old(uvs)|] == old(uvs)
      ensures forall k :: 0 <= k < VertexCount ==>
        && uvs[|old(uvs)| + k] == UV(k)
        && norms[|old(norms)| + k] == Point(surface, UV(k))
        && verts[|old(verts)| + k] == Add(Point(surface, UV(k)), pos)
      ensures fresh(indices) && indices.Length == IndexCount
      ensures forall s :: 0 <= s < IndexCount ==> indices[s] == IndexAt(s)
      ensures forall s :: 0 <= s < IndexCount ==> 0 <= indices[s] < VertexCount
    {
      BuildVertices(surface);
      BuildIndices();
    }

    /** The vertex loop: row by row, column by column, one position (moved
        to the centre), one normal and one texture coordinate. */
    method BuildVertices(surface: (real, real) -> (real, real, real))
      requires |pos| == 3
      modifies this`verts, this`norms, this`uvs
      ensures |verts| == |old(verts)| + VertexCount && verts[..|old(verts)|] == old(verts)
      ensures |norms| == |old(norms)| + VertexCount && norms[..|old(norms)|] == old(norms)
      ensures |uvs| == |old(uvs)| + VertexCount && uvs[..|old(uvs)|] == old(uvs)
      ensures forall k :: 0 <= k < VertexCount ==>
        && uvs[|old(uvs)| + k] == UV(k)
        && norms[|old(norms)| + k] == Point(surface, UV(k))
        && verts[|old(verts)| + k] == Add(Point(surface, UV(k)), pos)
    {
      ghost var v0, n0, u0 := verts, norms, uvs;
      var y := 0;
      while y <= YSegs
        invariant 0 <= y <= YSegs + 1
        invariant |verts| == |v0| + y * XSegs && verts[..|v0|] == v0
        invariant |norms| == |n0| + y * XSegs && norms[..|n0|] == n0
        invariant |uvs| == |u0| + y * XSegs && uvs[..|u0|] == u0
        invariant forall k :: 0 <= k < y * XSegs ==>
          && uvs[|u0| + k] == UV(k)
          && norms[|n0| + k] == Point(surface, UV(k))
          && verts[|v0| + k] == Add(Point(surface, UV(k)), pos)
      {
        ghost var pv, pn, pu := verts, norms, uvs;
        PushRow(surface, y);
        forall k | 0 <= k < (y + 1) * XSegs
          ensures && uvs[|u0| + k] == UV(k)
                  && norms[|n0| + k] == Point(surface, UV(k))
                  && verts[|v0| + k] == Add(Point(surface, UV(k)), pos)
        {
          if k < y * XSegs {
            assert uvs[|u0| + k] == uvs[..|pu|][|u0| + k];
            assert norms[|n0| + k] == norms[..|pn|][|n0| + k];
            assert verts[|v0| + k] == verts[..|pv|][|v0| + k];
          }
        }
        y := y + 1;
      }
    }

    /** One pass of the outer vertex loop: the 64 grid points of row y, in
        column order. */
    method PushRow(surface: (real, real) -> (real, real, real), y: nat)
      requires |pos| == 3
      modifies this`verts, this`norms, this`uvs
      ensures |verts| == |old(verts)| + XSegs && verts[..|old(verts)|] == old(verts)
      ensures |norms| == |old(norms)| + XSegs && norms[..|old(norms)|] == old(norms)
      ensures |uvs| == |old(uvs)| + XSegs && uvs[..|old(uvs)|] == old(uvs)
      ensures forall k :: y * XSegs <= k < y * XSegs + XSegs ==>
        && uvs[|old(uvs)| + (k - y * XSegs)] == UV(k)
        && norms[|old(norms)| + (k - y * XSegs)] == Point(surface, UV(k))
        && verts[|old(verts)| + (k - y * XSegs)] == Add(Point(surface, UV(k)), pos)
    {
      ghost var v0, n0, u0 := verts, norms, uvs;
      var x := 0;
      while x < XSegs
        invariant 0 <= x <= XSegs
        invariant |verts| == |v0| + x && verts[..|v0|] == v0
        invariant |norms| == |n0| + x && norms[..|n0|] == n0
        invariant |uvs| == |u0| + x && uvs[..|u0|] == u0
        invariant forall k :: y * XSegs <= k < y * XSegs + x ==>
          && uvs[|u0| + (k - y * XSegs)] == UV(k)
          && norms[|n0| + (k - y * XSegs)] == Point(surface, UV(k))
          && verts[|v0| + (k - y * XSegs)] == Add(Point(surface, UV(k)), pos)
      {
        var uv := [x as real / XSegs as real, y as real / YSegs as real];
        GridPoint(y, x);
        var p := surface(uv[0], uv[1]);
        var point := [p.0, p.1, p.2];
        verts := verts + [Add(point, pos)];
        norms := norms + [point];
        uvs := uvs + [uv];
        x := x + 1;
      }
    }

    /** The index loop: one band after the other. */
    method BuildIndices()
      modifies this`indices
      ensures fresh(indices) && indices.Length == IndexCount
      ensures forall s :: 0 <= s < IndexCount ==> indices[s] == IndexAt(s)
      ensures forall s :: 0 <= s < IndexCount ==> 0 <= indices[s] < VertexCount
    {
      indices := new int[IndexCount];
      var y := 0;
      while y < YSegs
        invariant 0 <= y <= YSegs && indices.Length == IndexCount && fresh(indices)
        invariant forall s :: 0 <= s < y * RowLength ==> indices[s] == IndexAt(s)
      {
        FillBand(indices, y);
        forall s | y * RowLength <= s < (y + 1) * RowLength
          ensures indices[s] == IndexAt(s)
        {
          var j := s - y * RowLength;
          SlotOfBand(y, j);
          assert indices[y * RowLength + j] == BandIndex(y, j);
        }
        y := y + 1;
      }
      forall s | 0 <= s < IndexCount
        ensures 0 <= indices[s] < VertexCount
      {
        IndexInRange(s);
      }
    }
  }

  /** One pass of the outer index loop: band y starts at slot
      count2 = (y · (x_segs + 1)) << 1 and refers to the vertices from
      count1 = y · x_segs on; no earlier slot changes. */
  method FillBand(a: array<int>, y: nat)
    requires a.Length == IndexCount && y < YSegs
    modifies a
    ensures forall s :: 0 <= s < y * RowLength ==> a[s] == old(a[s])
    ensures forall j :: 0 <= j < RowLength ==> a[y * RowLength + j] == BandIndex(y, j)
  {
    var count1 := y * XSegs;
    var count2 := y * (XSegs + 1) * 2;
    assert count2 == y * RowLength;
    var x := 0;
    while x < XSegs
      invariant 0 <= x <= XSegs
      invariant forall s :: 0 <= s < count2 ==> a[s] == old(a[s])
      invariant forall j :: 0 <= j < 2 * x ==> a[count2 + j] == BandIndex(y, j)
    {
      a[count2 + x * 2] := count1 + x + XSegs;
      a[count2 + x * 2 + 1] := count1 + x;
      assert BandIndex(y, 2 * x) == count1 + x + XSegs;
      assert BandIndex(y, 2 * x + 1) == count1 + x;
      x := x + 1;
    }
    a[count2 + XSegs * 2] := count1 + XSegs;
    a[count2 + XSegs * 2 + 1] := count1;
  }
}
