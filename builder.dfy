/** The pure mesh builders: every grid is a line list (each consecutive pair
    of vertices is one segment) computed from the grid descriptor and an
    alignment. */
module Builder {
  import opened Lib

  /** Normal offset of sub-grid vertices, against depth fighting with the
      main grid; the sub-grid child's transform undoes it. */
  const SUB_GRID_VERTICAL_OFFSET: real := -0.001

  /** The segment a-b runs across the mesh along z, from +size to -size. */
  predicate RunsAlongZ(a: Vec3, b: Vec3, size: real)
  {
    a.x == b.x && a.y == b.y && a.z == size && b.z == -size
  }

  /** The segment a-b runs across the mesh along x, from +size to -size. */
  predicate RunsAlongX(a: Vec3, b: Vec3, size: real)
  {
    a.z == b.z && a.y == b.y && a.x == size && b.x == -size
  }

  /** The four segments of one line position h: at x = +h and x = -h along z,
      at z = +h and z = -h along x, all at height v. */
  function LineVertices(size: real, h: real, v: real): (r: seq<Vec3>)
    ensures |r| == 8
    ensures forall i :: 0 <= i < 8 ==> r[i].y == v
    ensures RunsAlongZ(r[0], r[1], size) && r[0].x == h
    ensures RunsAlongZ(r[2], r[3], size) && r[2].x == -h
    ensures RunsAlongX(r[4], r[5], size) && r[4].z == h
    ensures RunsAlongX(r[6], r[7], size) && r[6].z == -h
  {
    [
      Vec3(h, v, size), Vec3(h, v, -size),
      Vec3(-h, v, size), Vec3(-h, v, -size),
      Vec3(size, v, h), Vec3(-size, v, h),
      Vec3(size, v, -h), Vec3(-size, v, -h)
    ]
  }

  /** The line blocks of all offsets, in order. */
  function LinesAt(size: real, offsets: seq<real>, v: real): seq<Vec3>
  {
    if offsets == [] then [] else LineVertices(size, offsets[0], v) + LinesAt(size, offsets[1..], v)
  }

  /** Every vertex shifted into the plane of alignment a. */
  function ShiftAll(a: GridAlignment, vs: seq<Vec3>): (r: seq<Vec3>)
    ensures |r| == |vs|
  {
    seq(|vs|, k requires 0 <= k < |vs| => a.ShiftVec3(vs[k]))
  }

  lemma {:induction false} LinesAtLength(size: real, offsets: seq<real>, v: real)
    ensures |LinesAt(size, offsets, v)| == 8 * |offsets|
  {
    if offsets != [] {
      LinesAtLength(size, offsets[1..], v);
    }
  }

  /** Block i of the flattened list is the line of offsets[i]. */
  lemma {:induction false} LinesAtIndex(size: real, offsets: seq<real>, v: real, i: nat, j: nat)
    requires i < |offsets| && j < 8
    ensures |LinesAt(size, offsets, v)| == 8 * |offsets|
    ensures LinesAt(size, offsets, v)[8 * i + j] == LineVertices(size, offsets[i], v)[j]
  {
    LinesAtLength(size, offsets, v);
    if i > 0 {
      LinesAtIndex(size, offsets[1..], v, i - 1, j);
      LinesAtLength(size, offsets[1..], v);
    }
  }

  /** Every vertex of the flattened list sits at height v. */
  lemma {:induction false} LinesAtHeight(size: real, offsets: seq<real>, v: real)
    ensures forall k :: 0 <= k < |LinesAt(size, offsets, v)| ==> LinesAt(size, offsets, v)[k].y == v
  {
    if offsets != [] {
      LinesAtHeight(size, offsets[1..], v);
    }
  }

  /** With every offset inside [-size, size], so is every in-plane coordinate. */
  lemma {:induction false} LinesAtBounded(size: real, offsets: seq<real>, v: real)
    requires forall i :: 0 <= i < |offsets| ==> -size <= offsets[i] <= size
    ensures forall k :: 0 <= k < |LinesAt(size, offsets, v)| ==>
      -size <= LinesAt(size, offsets, v)[k].x <= size && -size <= LinesAt(size, offsets, v)[k].z <= size
  {
    if offsets != [] {
      LinesAtBounded(size, offsets[1..], v);
    }
  }

  /** The main grid's line positions: spacing, 2 spacing, ..., count spacing. */
  function MainOffsets(grid: Grid): (r: seq<real>)
    ensures |r| == grid.count
  {
    seq(grid.count, i requires 0 <= i < grid.count => (i + 1) as real * grid.spacing)
  }

  /** The main grid's line list in the plane of `alignment`, and its half size. */
  function MainGridVerticesAndSize(grid: Grid, alignment: GridAlignment): (r: (seq<Vec3>, real))
    ensures r.1 == grid.count as real * grid.spacing
    ensures |r.0| == 8 * grid.count
    ensures forall k :: 0 <= k < |r.0| ==> Component(r.0[k], alignment) == 0.0
  {
    var size := grid.Size();
    var lines := LinesAt(size, MainOffsets(grid), 0.0);
    LinesAtLength(size, MainOffsets(grid), 0.0);
    LinesAtHeight(size, MainOffsets(grid), 0.0);
    (ShiftAll(alignment, lines), size)
  }

  /** The last line position is the mesh border. */
  lemma LastOffsetIsBorder(grid: Grid)
    requires grid.count > 0
    ensures MainOffsets(grid)[grid.count - 1] == grid.Size()
  {
    assert ((grid.count - 1) + 1) as real == grid.count as real;
  }

  /** Block i of the main grid is the line at offset (i+1) spacing, shifted. */
  lemma MainGridBlock(grid: Grid, alignment: GridAlignment, i: nat, j: nat)
    requires i < grid.count && j < 8
    ensures MainGridVerticesAndSize(grid, alignment).0[8 * i + j]
         == alignment.ShiftVec3(LineVertices(grid.Size(), (i + 1) as real * grid.spacing, 0.0)[j])
  {
    var offsets := MainOffsets(grid);
    var lines := LinesAt(grid.Size(), offsets, 0.0);
    assert offsets[i] == (i + 1) as real * grid.spacing;
    LinesAtIndex(grid.Size(), offsets, 0.0, i, j);
    assert lines[8 * i + j] == LineVertices(grid.Size(), offsets[i], 0.0)[j];
    assert MainGridVerticesAndSize(grid, alignment).0 == ShiftAll(alignment, lines);
  }

  /** An empty grid has no vertices. */
  lemma EmptyMainGrid(grid: Grid, alignment: GridAlignment)
    requires grid.count == 0
    ensures MainGridVerticesAndSize(grid, alignment) == ([], 0.0)
  {
  }

  lemma MulBetween(lo: real, hi: real, s: real)
    requires 0.0 <= lo <= hi && s >= 0.0
    ensures 0.0 <= lo * s <= hi * s
  {
    MulMonotone(0.0, lo, s);
    MulMonotone(lo, hi, s);
  }

  lemma OffsetWithin(grid: Grid, i: nat)
    requires grid.spacing >= 0.0 && i < grid.count
    ensures 0.0 <= MainOffsets(grid)[i] <= grid.Size()
  {
    var lo := (i + 1) as real;
    var hi := grid.count as real;
    assert MainOffsets(grid)[i] == lo * grid.spacing;
    assert grid.Size() == hi * grid.spacing;
    MulBetween(lo, hi, grid.spacing);
  }

  /** With non-negative spacing every in-plane coordinate of the main grid
      lies within [-size, size]. */
  lemma MainGridBounded(grid: Grid, alignment: GridAlignment)
    requires grid.spacing >= 0.0
    ensures forall k, b :: 0 <= k < |MainGridVerticesAndSize(grid, alignment).0| && b != alignment ==>
      -grid.Size() <= Component(MainGridVerticesAndSize(grid, alignment).0[k], b) <= grid.Size()
  {
    var size := grid.Size();
    var offsets := MainOffsets(grid);
    forall i | 0 <= i < |offsets| ensures -size <= offsets[i] <= size {
      OffsetWithin(grid, i);
    }
    LinesAtBounded(size, offsets, 0.0);
    var vs := MainGridVerticesAndSize(grid, alignment).0;
    forall k, b | 0 <= k < |vs| && b != alignment ensures -size <= Component(vs[k], b) <= size {
      var w := LinesAt(size, offsets, 0.0)[k];
      assert vs[k] == alignment.ShiftVec3(w);
      assert b == alignment.Next() || b == alignment.Next().Next() by {
        assert alignment == X || alignment == Y || alignment == Z;
      }
      assert -size <= w.x <= size && -size <= w.z <= size;
    }
  }

  /** Spacing between sub-grid lines. */
  function SubSpacing(grid: Grid, sub: SubGrid): real
  {
    grid.spacing / (sub.count + 1) as real
  }

  /** Sub-grid line positions inside main cell i, computed as the source's
      fused multiply-add k * sub_spacing + (i * spacing + sub_spacing). */
  function CellSubOffsets(grid: Grid, sub: SubGrid, i: nat): (r: seq<real>)
    ensures |r| == sub.count
  {
    seq(sub.count, k requires 0 <= k < sub.count =>
      k as real * SubSpacing(grid, sub) + (i as real * grid.spacing + SubSpacing(grid, sub)))
  }

  /** Sub-grid positions of the first n cells, cell by cell. */
  function SubOffsetsUpTo(grid: Grid, sub: SubGrid, n: nat): seq<real>
  {
    if n == 0 then [] else SubOffsetsUpTo(grid, sub, n - 1) + CellSubOffsets(grid, sub, n - 1)
  }

  lemma MulStep(i: nat, n: nat, c: nat, k: nat)
    requires i < n && k < c
    ensures i * c + k < n * c
  {
    assert i * c + k < i * c + c == (i + 1) * c;
    assert (i + 1) * c <= n * c;
  }

  /** Position i * count + k of the sub-grid list is sub-line k of cell i. */
  lemma {:induction false} SubOffsetsAt(grid: Grid, sub: SubGrid, n: nat, i: nat, k: nat)
    requires i < n && k < sub.count
    ensures |SubOffsetsUpTo(grid, sub, n)| == n * sub.count
    ensures SubOffsetsUpTo(grid, sub, n)[i * sub.count + k] == CellSubOffsets(grid, sub, i)[k]
  {
    SubOffsetsLength(grid, sub, n);
    SubOffsetsLength(grid, sub, n - 1);
    if i < n - 1 {
      SubOffsetsAt(grid, sub, n - 1, i, k);
      MulStep(i, n - 1, sub.count, k);
    } else {
      assert i * sub.count == (n - 1) * sub.count;
    }
  }

  lemma {:induction false} SubOffsetsLength(grid: Grid, sub: SubGrid, n: nat)
    ensures |SubOffsetsUpTo(grid, sub, n)| == n * sub.count
  {
    if n > 0 {
      SubOffsetsLength(grid, sub, n - 1);
    }
  }

  /** With positive spacing each sub-line lies strictly between the main
      lines i spacing and (i+1) spacing that bound its cell. */
  lemma SubOffsetStrictlyInside(grid: Grid, sub: SubGrid, i: nat, k: nat)
    requires grid.spacing > 0.0 && k < sub.count
    ensures CellSubOffsets(grid, sub, i)[k] == i as real * grid.spacing + (k + 1) as real * SubSpacing(grid, sub)
    ensures i as real * grid.spacing < CellSubOffsets(grid, sub, i)[k] < (i + 1) as real * grid.spacing
  {
    var d := (sub.count + 1) as real;
    var ss := SubSpacing(grid, sub);
    assert ss * d == grid.spacing;
    assert ss > 0.0;
    var kk := (k + 1) as real;
    assert 1.0 <= kk < d;
    assert kk * ss < d * ss;
    assert 0.0 < kk * ss;
  }

  /** The sub-grid's line list in the plane of `alignment`, nudged along the
      normal by SUB_GRID_VERTICAL_OFFSET. */
  function SubGridVertices(grid: Grid, sub: SubGrid, alignment: GridAlignment): (r: seq<Vec3>)
    ensures |r| == 8 * (grid.count * sub.count)
    ensures forall k :: 0 <= k < |r| ==> Component(r[k], alignment) == SUB_GRID_VERTICAL_OFFSET
  {
    var offsets := SubOffsetsUpTo(grid, sub, grid.count);
    SubOffsetsLength(grid, sub, grid.count);
    LinesAtLength(grid.Size(), offsets, SUB_GRID_VERTICAL_OFFSET);
    LinesAtHeight(grid.Size(), offsets, SUB_GRID_VERTICAL_OFFSET);
    ShiftAll(alignment, LinesAt(grid.Size(), offsets, SUB_GRID_VERTICAL_OFFSET))
  }

  /** Block (i, k) of the sub-grid is the line at offset i spacing +
      (k+1) sub_spacing, shifted into the plane. */
  lemma SubGridBlock(grid: Grid, sub: SubGrid, alignment: GridAlignment, i: nat, k: nat, j: nat)
    requires i < grid.count && k < sub.count && j < 8
    ensures 8 * (i * sub.count + k) + j < |SubGridVertices(grid, sub, alignment)|
    ensures SubGridVertices(grid, sub, alignment)[8 * (i * sub.count + k) + j]
         == alignment.ShiftVec3(LineVertices(grid.Size(), CellSubOffsets(grid, sub, i)[k], SUB_GRID_VERTICAL_OFFSET)[j])
  {
    var offsets := SubOffsetsUpTo(grid, sub, grid.count);
    SubOffsetsAt(grid, sub, grid.count, i, k);
    MulStep(i, grid.count, sub.count, k);
    LinesAtIndex(grid.Size(), offsets, SUB_GRID_VERTICAL_OFFSET, i * sub.count + k, j);
  }

  /** Local translation of the sub-grid child. */
  function SubGridTranslation(alignment: GridAlignment): (t: Vec3)
    ensures Component(t, alignment) == -SUB_GRID_VERTICAL_OFFSET
    ensures forall b: GridAlignment :: b != alignment ==> Component(t, b) == 0.0
  {
    // -Y scaled by the (negative) offset
    alignment.ShiftVec3(Vec3(0.0, -SUB_GRID_VERTICAL_OFFSET, 0.0))
  }

  /** The child's translation cancels the vertices' normal offset: placed in
      the parent's frame every sub-grid vertex lies in the grid plane. */
  lemma SubGridOffsetCancels(grid: Grid, sub: SubGrid, alignment: GridAlignment)
    ensures forall k :: 0 <= k < |SubGridVertices(grid, sub, alignment)| ==>
      Component(SubGridVertices(grid, sub, alignment)[k].Plus(SubGridTranslation(alignment)), alignment) == 0.0
  {
    var vs := SubGridVertices(grid, sub, alignment);
    var t := SubGridTranslation(alignment);
    forall k | 0 <= k < |vs| ensures Component(vs[k].Plus(t), alignment) == 0.0 {
      assert Component(vs[k].Plus(t), alignment) == Component(vs[k], alignment) + Component(t, alignment);
    }
  }

  /** Clip radius of tracked materials: one cell less than the mesh's half size. */
  function ClipRadius(grid: Grid): (r: real)
    ensures r == (grid.count as real - 1.0) * grid.spacing
    ensures r + grid.spacing == grid.Size()
  {
    grid.Size() - grid.spacing
  }

  /** The two axes of the Y plane, X then Z, each as one segment through the
      origin, shifted into the plane of `alignment`. */
  function PlaneAxes(size: real, alignment: GridAlignment): (r: seq<Vec3>)
    ensures |r| == 4
    ensures r[0] == alignment.ShiftVec3(Vec3(size, 0.0, 0.0)) && r[1] == r[0].Neg()
    ensures r[2] == alignment.ShiftVec3(Vec3(0.0, 0.0, size)) && r[3] == r[2].Neg()
    ensures forall k :: 0 <= k < 4 ==> Component(r[k], alignment) == 0.0
  {
    var x := alignment.ShiftVec3(Vec3(size, 0.0, 0.0));
    var z := alignment.ShiftVec3(Vec3(0.0, 0.0, size));
    [x, x.Neg(), z, z.Neg()]
  }

  /** The shifted single-axis segment of axis a is segment i of PlaneAxes. */
  lemma AxisSegment(size: real, alignment: GridAlignment, a: GridAlignment, i: nat)
    requires (i == 0 && a == X) || (i == 1 && a == Z)
    ensures PlaneAxes(size, alignment)[2 * i] == alignment.ShiftVec3(CreateSingleAxis(size, a)[0])
    ensures PlaneAxes(size, alignment)[2 * i + 1] == alignment.ShiftVec3(CreateSingleAxis(size, a)[1])
  {
    var segment := CreateSingleAxis(size, a);
    assert segment[0] == (if i == 0 then Vec3(size, 0.0, 0.0) else Vec3(0.0, 0.0, size));
    ShiftLinear(alignment, segment[0], segment[0], 1.0);
  }

  /** The tracked main mesh: the main grid followed by the plane's own two
      axes through the origin, one segment each. */
  method TrackedMainVertices(grid: Grid, alignment: GridAlignment) returns (vertices: seq<Vec3>, size: real)
    ensures size == grid.Size()
    ensures vertices == MainGridVerticesAndSize(grid, alignment).0 + PlaneAxes(size, alignment)
  {
    var main := MainGridVerticesAndSize(grid, alignment);
    vertices, size := main.0, main.1;
    ghost var axisVertices := PlaneAxes(size, alignment);
    var axes := [X, Z];
    for i := 0 to 2
      invariant vertices == main.0 + axisVertices[..2 * i]
    {
      var segment := CreateSingleAxis(size, axes[i]);
      var ends := [alignment.ShiftVec3(segment[0]), alignment.ShiftVec3(segment[1])];
      AxisSegment(size, alignment, axes[i], i);
      assert axisVertices[..2 * i + 2] == axisVertices[..2 * i] + ends;
      vertices := vertices + ends;
    }
    assert axisVertices[..4] == axisVertices;
  }

  /** The default grid's mesh: 64 vertices, half size 2, clip radius 1.75. */
  lemma DefaultGridMesh(alphaMode: AlphaMode, alignment: GridAlignment)
    ensures |MainGridVerticesAndSize(DefaultGrid(alphaMode), alignment).0| == 64
    ensures MainGridVerticesAndSize(DefaultGrid(alphaMode), alignment).1 == 2.0
    ensures ClipRadius(DefaultGrid(alphaMode)) == 1.75
  {
  }
}
