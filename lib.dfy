/** The grid descriptors and the axis/alignment algebra of the debug-grid
    plugin: vectors under exact arithmetic, the three grid alignments, the
    per-axis colour overrides and the tracking descriptor. */
module Lib {

  datatype Option<+T> = None | Some(value: T)

  /** An entity handle of the host's entity store. */
  type Entity = nat

  /** A colour of the host engine, kept opaque: the model never looks inside. */
  datatype Color = Silver | Red | Green | Blue | Other(id: nat)

  /** The host's blend mode, kept opaque. */
  datatype AlphaMode = Opaque | Mask(cutoff: real) | Blend | Premultiplied | AlphaToCoverage | Add | Multiply

  /** A point or direction in space; coordinates are exact reals. */
  datatype Vec3 = Vec3(x: real, y: real, z: real)
  {
    function Plus(o: Vec3): Vec3 { Vec3(x + o.x, y + o.y, z + o.z) }
    function Minus(o: Vec3): Vec3 { Vec3(x - o.x, y - o.y, z - o.z) }
    /** Component-wise product. */
    function Times(o: Vec3): Vec3 { Vec3(x * o.x, y * o.y, z * o.z) }
    function Scale(k: real): Vec3 { Vec3(x * k, y * k, z * k) }
    function Neg(): Vec3 { Vec3(-x, -y, -z) }
  }

  const ZERO := Vec3(0.0, 0.0, 0.0)
  const ONE := Vec3(1.0, 1.0, 1.0)
  const UNIT_X := Vec3(1.0, 0.0, 0.0)
  const UNIT_Y := Vec3(0.0, 1.0, 0.0)
  const UNIT_Z := Vec3(0.0, 0.0, 1.0)

  /** Which coordinate axis is the grid's normal; Y (a floor) is the default. */
  datatype GridAlignment = X | Y | Z
  {
    /** The unit vector along this axis. */
    function ToAxisVec3(): (v: Vec3)
      ensures v.x == (if this == X then 1.0 else 0.0)
      ensures v.y == (if this == Y then 1.0 else 0.0)
      ensures v.z == (if this == Z then 1.0 else 0.0)
    {
      match this
      case X => UNIT_X
      case Y => UNIT_Y
      case Z => UNIT_Z
    }

    /** ONE minus the axis vector: zero on the normal, one in the plane. */
    function ToInvertedAxisVec3(): (v: Vec3)
      ensures v.x == (if this == X then 0.0 else 1.0)
      ensures v.y == (if this == Y then 0.0 else 1.0)
      ensures v.z == (if this == Z then 0.0 else 1.0)
    {
      match this
      case X => Vec3(0.0, 1.0, 1.0)
      case Y => Vec3(1.0, 0.0, 1.0)
      case Z => Vec3(1.0, 1.0, 0.0)
    }

    /** Rotates a Y-plane coordinate triple into this plane: the input's y
        becomes the coordinate along this axis; Y leaves the input alone. */
    function ShiftVec3(input: Vec3): (r: Vec3)
      ensures Component(r, this) == input.y
      ensures this == Y ==> r == input
      ensures this != Y ==> Component(r, Next()) == input.z && Component(r, Next().Next()) == input.x
    {
      match this
      case X => Vec3(input.y, input.z, input.x)
      case Y => input
      case Z => Vec3(input.z, input.x, input.y)
    }

    /** The cyclic successor X -> Y -> Z -> X. */
    function Next(): GridAlignment
    {
      match this
      case X => Y
      case Y => Z
      case Z => X
    }

    /** Position in the X, Y, Z order. */
    function Index(): nat
    {
      match this
      case X => 0
      case Y => 1
      case Z => 2
    }
  }

  /** The coordinate of v along axis a. */
  function Component(v: Vec3, a: GridAlignment): real
  {
    match a
    case X => v.x
    case Y => v.y
    case Z => v.z
  }

  /** The inverted axis vector is ONE minus the axis vector, and the two
      split ONE between them. */
  lemma InvertedIsComplement(a: GridAlignment)
    ensures a.ToInvertedAxisVec3() == ONE.Minus(a.ToAxisVec3())
    ensures a.ToInvertedAxisVec3().Plus(a.ToAxisVec3()) == ONE
  {
  }

  /** The conversion of an alignment into a vector is its inverted axis vector. */
  function IntoVec3(a: GridAlignment): (v: Vec3)
    ensures Component(v, a) == 0.0
    ensures forall b: GridAlignment :: b != a ==> Component(v, b) == 1.0
  {
    a.ToInvertedAxisVec3()
  }

  /** Shifting the up vector gives the axis vector of every alignment. */
  lemma ShiftUpIsAxis(a: GridAlignment)
    ensures a.ShiftVec3(UNIT_Y) == a.ToAxisVec3()
  {
  }

  /** X and Z shift in opposite directions: each undoes the other. */
  lemma ShiftXZInverse(v: Vec3)
    ensures X.ShiftVec3(Z.ShiftVec3(v)) == v
    ensures Z.ShiftVec3(X.ShiftVec3(v)) == v
  {
  }

  /** Shifting by X three times is the identity, and so is Z. */
  lemma ShiftThreeTimes(v: Vec3)
    ensures X.ShiftVec3(X.ShiftVec3(X.ShiftVec3(v))) == v
    ensures Z.ShiftVec3(Z.ShiftVec3(Z.ShiftVec3(v))) == v
    ensures X.ShiftVec3(X.ShiftVec3(v)) == Z.ShiftVec3(v)
  {
  }

  /** Every shift is linear. */
  lemma ShiftLinear(a: GridAlignment, u: Vec3, v: Vec3, k: real)
    ensures a.ShiftVec3(u.Plus(v)) == a.ShiftVec3(u).Plus(a.ShiftVec3(v))
    ensures a.ShiftVec3(u.Scale(k)) == a.ShiftVec3(u).Scale(k)
    ensures a.ShiftVec3(u.Neg()) == a.ShiftVec3(u).Neg()
  {
  }

  /** Multiplying by a non-negative factor keeps the order. */
  lemma MulMonotone(a: real, b: real, s: real)
    requires a <= b && s >= 0.0
    ensures a * s <= b * s
  {
  }

  /** A count scaled by a non-negative step is non-negative; no steps make zero. */
  lemma ScaledCount(n: nat, s: real)
    ensures n == 0 ==> n as real * s == 0.0
    ensures s >= 0.0 ==> n as real * s >= 0.0
  {
    if s >= 0.0 {
      MulMonotone(0.0, n as real, s);
    }
  }

  /** The main grid descriptor. */
  datatype Grid = Grid(spacing: real, count: nat, color: Color, alphaMode: AlphaMode)
  {
    /** Half the side length of the generated mesh. */
    function Size(): (r: real)
      ensures count == 0 ==> r == 0.0
      ensures spacing >= 0.0 ==> r >= 0.0
    {
      ScaledCount(count, spacing);
      count as real * spacing
    }
  }

  /** The default grid: 8 lines a quarter apart, in silver. */
  function DefaultGrid(alphaMode: AlphaMode): (g: Grid)
    ensures g.Size() == 2.0 && g.color == Silver && g.alphaMode == alphaMode
  {
    Grid(0.25, 8, Silver, alphaMode)
  }

  /** Lines drawn between the main grid's lines. */
  datatype SubGrid = SubGrid(count: nat, color: Color)

  /** Marks a grid as following a tracked entity. */
  datatype TrackedGrid = TrackedGrid(alignment: GridAlignment, offset: real, trackingOverride: Option<Entity>)

  function DefaultTrackedGrid(): (t: TrackedGrid)
    ensures t.alignment == Y && t.offset == 0.0 && t.trackingOverride == None
  {
    TrackedGrid(Y, 0.0, None)
  }

  /** The default merged axes: Y is never drawn by default. */
  function DefaultAxis(): (r: seq<GridAlignment>)
    ensures Y !in r && X in r && Z in r && |r| == 2
    ensures r[0] == X && r[1] == Z
  {
    [X, Z]
  }

  /** Per-axis colour overrides. */
  datatype GridAxis = GridAxis(x: Option<Color>, y: Option<Color>, z: Option<Color>)
  {
    /** An override with no axis coloured. */
    static function NewEmpty(): (r: GridAxis)
      ensures forall a: GridAlignment :: r.GetByAlignment(a) == None
    {
      GridAxis(None, None, None)
    }

    /** Red for X, green for Y, blue for Z. */
    static function NewRgb(): (r: GridAxis)
      ensures r.GetByAlignment(X) == Some(Red)
      ensures r.GetByAlignment(Y) == Some(Green)
      ensures r.GetByAlignment(Z) == Some(Blue)
    {
      GridAxis(Some(Red), Some(Green), Some(Blue))
    }

    /** The colour configured for an axis, if any. */
    function GetByAlignment(a: GridAlignment): (r: Option<Color>)
      ensures r == [x, y, z][a.Index()]
    {
      match a
      case X => x
      case Y => y
      case Z => z
    }

    /** The coloured axes among `axes`, in the order of `axes`. */
    function UsedAmong(axes: seq<GridAlignment>): seq<(GridAlignment, Color)>
    {
      if axes == [] then []
      else
        (match GetByAlignment(axes[0])
         case Some(c) => [(axes[0], c)]
         case None => [])
        + UsedAmong(axes[1..])
    }

    /** The uncoloured axes among `axes`, in the order of `axes`. */
    function UnusedAmong(axes: seq<GridAlignment>): seq<GridAlignment>
    {
      if axes == [] then []
      else (if GetByAlignment(axes[0]).None? then [axes[0]] else []) + UnusedAmong(axes[1..])
    }

    /** Reference definition of the `used` half of the split. */
    function UsedAxes(): seq<(GridAlignment, Color)> { UsedAmong([X, Y, Z]) }

    /** Reference definition of the `unused` half: only default axes qualify. */
    function UnusedAxes(): seq<GridAlignment> { UnusedAmong(DefaultAxis()) }

    /** Splits the axes into coloured ones and uncoloured default ones. */
    method CreateAxis() returns (used: seq<(GridAlignment, Color)>, unused: seq<GridAlignment>)
      ensures used == UsedAxes()
      ensures unused == UnusedAxes()
    {
      SplitUnfolded(this);
      used, unused := [], [];
      if x.Some? {
        used := used + [(X, x.value)];
      } else {
        unused := unused + [X];
      }
      // Y axis does not create a default
      if y.Some? {
        used := used + [(Y, y.value)];
      }
      if z.Some? {
        used := used + [(Z, z.value)];
      } else {
        unused := unused + [Z];
      }
    }
  }

  function DefaultGridAxis(): (r: GridAxis)
    ensures r == GridAxis.NewEmpty()
  {
    GridAxis.NewEmpty()
  }

  /** A straight segment through the origin along axis a, reaching +-size. */
  function CreateSingleAxis(size: real, a: GridAlignment): (r: seq<Vec3>)
    ensures |r| == 2
    ensures Component(r[0], a) == size
    ensures forall b: GridAlignment :: b != a ==> Component(r[0], b) == 0.0
    ensures r[1] == r[0].Neg()
  {
    [a.ShiftVec3(Vec3(0.0, size, 0.0)), a.ShiftVec3(Vec3(0.0, -size, 0.0))]
  }

  /** The coloured entry of one axis, if it has a colour. */
  function UsedEntry(g: GridAxis, a: GridAlignment): seq<(GridAlignment, Color)>
  {
    if g.GetByAlignment(a).Some? then [(a, g.GetByAlignment(a).value)] else []
  }

  /** The split written out axis by axis. */
  lemma SplitUnfolded(g: GridAxis)
    ensures g.UsedAxes() == UsedEntry(g, X) + UsedEntry(g, Y) + UsedEntry(g, Z)
    ensures g.UnusedAxes() == (if g.x.None? then [X] else []) + (if g.z.None? then [Z] else [])
  {
    assert [X, Y, Z][1..] == [Y, Z];
    assert [Y, Z][1..] == [Z];
    assert [Z][1..] == [];
    assert [X, Z][1..] == [Z];
    assert g.UsedAmong([Z]) == UsedEntry(g, Z);
    assert g.UsedAmong([Y, Z]) == UsedEntry(g, Y) + UsedEntry(g, Z);
    assert g.UnusedAmong([Z]) == (if g.z.None? then [Z] else []);
  }

  lemma {:induction false} UsedAmongMembership(g: GridAxis, axes: seq<GridAlignment>, a: GridAlignment, c: Color)
    ensures (a, c) in g.UsedAmong(axes) <==> a in axes && g.GetByAlignment(a) == Some(c)
  {
    if axes != [] {
      UsedAmongMembership(g, axes[1..], a, c);
      assert axes == [axes[0]] + axes[1..];
    }
  }

  lemma {:induction false} UnusedAmongMembership(g: GridAxis, axes: seq<GridAlignment>, a: GridAlignment)
    ensures a in g.UnusedAmong(axes) <==> a in axes && g.GetByAlignment(a) == None
  {
    if axes != [] {
      UnusedAmongMembership(g, axes[1..], a);
      assert axes == [axes[0]] + axes[1..];
    }
  }

  /** `used` holds (a, c) exactly when axis a is coloured c. */
  lemma UsedAxesMembership(g: GridAxis, a: GridAlignment, c: Color)
    ensures (a, c) in g.UsedAxes() <==> g.GetByAlignment(a) == Some(c)
  {
    UsedAmongMembership(g, [X, Y, Z], a, c);
    assert a in [X, Y, Z] by { assert a == X || a == Y || a == Z; }
  }

  /** `unused` holds X iff x is unset, Z iff z is unset, and never Y; no
      alignment is both used and unused. */
  lemma UnusedAxesMembership(g: GridAxis, a: GridAlignment)
    ensures a in g.UnusedAxes() <==> a != Y && g.GetByAlignment(a) == None
    ensures Y !in g.UnusedAxes()
    ensures forall c: Color :: !((a, c) in g.UsedAxes() && a in g.UnusedAxes())
  {
    UnusedAmongMembership(g, DefaultAxis(), a);
    UnusedAmongMembership(g, DefaultAxis(), Y);
    forall c: Color ensures !((a, c) in g.UsedAxes() && a in g.UnusedAxes()) {
      UsedAxesMembership(g, a, c);
    }
  }

  /** `used` lists its axes in strictly increasing X, Y, Z order. */
  lemma UsedAxesOrdered(g: GridAxis)
    ensures forall i, j :: 0 <= i < j < |g.UsedAxes()| ==> g.UsedAxes()[i].0.Index() < g.UsedAxes()[j].0.Index()
    ensures |g.UsedAxes()| <= 3
  {
    SplitUnfolded(g);
  }

  /** An empty override splits into nothing used and the default axes unused. */
  lemma EmptyAxisSplit()
    ensures GridAxis.NewEmpty().UsedAxes() == []
    ensures GridAxis.NewEmpty().UnusedAxes() == DefaultAxis()
    ensures DefaultGridAxis().UnusedAxes() == [X, Z]
  {
  }

  /** The RGB override uses all three axes in order and leaves none unused. */
  lemma RgbAxisSplit()
    ensures GridAxis.NewRgb().UsedAxes() == [(X, Red), (Y, Green), (Z, Blue)]
    ensures GridAxis.NewRgb().UnusedAxes() == []
  {
  }
}
