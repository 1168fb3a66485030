/** Tracking: each frame a tracked grid is moved to the grid cell under the
    tracked entity, so its lines stay fixed in the world while the grid
    follows the viewer. */
module Tracking {
  import opened Lib

  /** The largest multiple of spacing that is not above x. */
  function SnapToSpacing(x: real, spacing: real): (r: real)
    requires spacing > 0.0
    ensures r <= x < r + spacing
  {
    FloorBounds(x, spacing);
    (x / spacing).Floor as real * spacing
  }

  lemma MulStrict(a: real, b: real, s: real)
    requires a < b && s > 0.0
    ensures a * s < b * s
  {
  }

  lemma FloorBounds(x: real, spacing: real)
    requires spacing > 0.0
    ensures (x / spacing).Floor as real * spacing <= x < (x / spacing).Floor as real * spacing + spacing
  {
    var q := x / spacing;
    var n := q.Floor as real;
    assert n <= q < n + 1.0;
    assert q * spacing == x;
    MulMonotone(n, q, spacing);
    var hi := n + 1.0;
    MulStrict(q, hi, spacing);
    assert x < hi * spacing;
    assert hi * spacing == n * spacing + spacing;
  }

  /** A snapped coordinate is an integer multiple of the spacing. */
  lemma SnapIsMultiple(x: real, spacing: real) returns (n: int)
    requires spacing > 0.0
    ensures SnapToSpacing(x, spacing) == n as real * spacing
  {
    n := (x / spacing).Floor;
  }

  /** Snapping a multiple of the spacing leaves it where it is. */
  lemma SnapOfMultiple(n: int, spacing: real)
    requires spacing > 0.0
    ensures SnapToSpacing(n as real * spacing, spacing) == n as real * spacing
  {
    assert (n as real * spacing) / spacing == n as real;
  }

  lemma SnapOfZero(spacing: real)
    requires spacing > 0.0
    ensures SnapToSpacing(0.0, spacing) == 0.0
  {
    SnapOfMultiple(0, spacing);
  }

  /** Multiplying by the inverted axis vector zeroes the normal coordinate
      and keeps the other two. */
  lemma ProjectOntoPlane(position: Vec3, a: GridAlignment)
    ensures position.Times(a.ToInvertedAxisVec3()) ==
      Vec3(if a == X then 0.0 else position.x,
           if a == Y then 0.0 else position.y,
           if a == Z then 0.0 else position.z)
  {
    var inv := a.ToInvertedAxisVec3();
    MulBit(position.x, inv.x);
    MulBit(position.y, inv.y);
    MulBit(position.z, inv.z);
  }

  /** Multiplying by 0 or 1 needs no nonlinear reasoning. */
  lemma MulBit(x: real, bit: real)
    requires bit == 0.0 || bit == 1.0
    ensures x * bit == if bit == 0.0 then 0.0 else x
    ensures bit * x == if bit == 0.0 then 0.0 else x
  {
  }

  /** The axis vector scaled by k is k on the normal and zero elsewhere. */
  lemma ScaledAxis(a: GridAlignment, k: real)
    ensures a.ToAxisVec3().Scale(k) ==
      Vec3(if a == X then k else 0.0, if a == Y then k else 0.0, if a == Z then k else 0.0)
  {
    var axis := a.ToAxisVec3();
    MulBit(k, axis.x);
    MulBit(k, axis.y);
    MulBit(k, axis.z);
  }

  /** Snaps each coordinate of v. */
  function SnapVec(v: Vec3, spacing: real): Vec3
    requires spacing > 0.0
  {
    Vec3(SnapToSpacing(v.x, spacing), SnapToSpacing(v.y, spacing), SnapToSpacing(v.z, spacing))
  }

  /** The grid's new local translation for tracked position `position`:
      drop the coordinate along the normal, snap the rest to the grid
      spacing, and lift by `offset` along the normal. The result sits at the
      offset on the normal and at the snapped tracked coordinate in the plane. */
  function Snap(position: Vec3, grid: Grid, tracked: TrackedGrid): (r: Vec3)
    requires grid.spacing > 0.0
    ensures r.x == (if tracked.alignment == X then tracked.offset else SnapToSpacing(position.x, grid.spacing))
    ensures r.y == (if tracked.alignment == Y then tracked.offset else SnapToSpacing(position.y, grid.spacing))
    ensures r.z == (if tracked.alignment == Z then tracked.offset else SnapToSpacing(position.z, grid.spacing))
  {
    var a := tracked.alignment;
    var projected := position.Times(a.ToInvertedAxisVec3());
    var offset := a.ToAxisVec3().Scale(tracked.offset);
    ProjectOntoPlane(position, a);
    ScaledAxis(a, tracked.offset);
    SnapOfZero(grid.spacing);
    SnapVec(projected, grid.spacing).Plus(offset)
  }

  /** In the grid's plane, the snapped translation is the corner of the
      grid cell that holds the tracked position. */
  lemma SnapWithinCell(position: Vec3, grid: Grid, tracked: TrackedGrid, b: GridAlignment)
    requires grid.spacing > 0.0
    requires b != tracked.alignment
    ensures Component(Snap(position, grid, tracked), b) <= Component(position, b)
    ensures Component(position, b) < Component(Snap(position, grid, tracked), b) + grid.spacing
  {
    var x := Component(position, b);
    assert Component(Snap(position, grid, tracked), b) == SnapToSpacing(x, grid.spacing);
  }

  /** Snapping an already snapped coordinate leaves it where it is. */
  lemma SnapTwice(x: real, spacing: real)
    requires spacing > 0.0
    ensures SnapToSpacing(SnapToSpacing(x, spacing), spacing) == SnapToSpacing(x, spacing)
  {
    var n := SnapIsMultiple(x, spacing);
    SnapOfMultiple(n, spacing);
  }

  /** Snapping is stable: a grid already at its snapped place stays there
      when the tracked entity stands on that place. */
  lemma SnapIdempotent(position: Vec3, grid: Grid, tracked: TrackedGrid)
    requires grid.spacing > 0.0
    ensures Snap(Snap(position, grid, tracked), grid, tracked) == Snap(position, grid, tracked)
  {
    var r := Snap(position, grid, tracked);
    SnapTwice(position.x, grid.spacing);
    SnapTwice(position.y, grid.spacing);
    SnapTwice(position.z, grid.spacing);
  }

  /** Dividing both sides of a * s <= b * s by a positive s. */
  lemma MulCancel(a: real, b: real, s: real)
    requires s > 0.0 && a * s <= b * s
    ensures a <= b
  {
    if b < a {
      MulStrict(b, a, s);
    }
  }

  /** Dividing both sides of a * s < b * s by a positive s. */
  lemma MulCancelStrict(a: real, b: real, s: real)
    requires s > 0.0 && a * s < b * s
    ensures a < b
  {
    if b <= a {
      MulMonotone(b, a, s);
    }
  }

  /** Pins down one snapped coordinate from the cell index it falls in. */
  lemma SnapCoordinate(x: real, spacing: real, n: int)
    requires spacing > 0.0
    requires n as real * spacing <= x < n as real * spacing + spacing
    ensures SnapToSpacing(x, spacing) == n as real * spacing
  {
    var q := x / spacing;
    var lo := n as real;
    var hi := lo + 1.0;
    assert q * spacing == x;
    assert hi * spacing == lo * spacing + spacing;
    assert lo * spacing <= q * spacing;
    MulCancel(lo, q, spacing);
    assert q * spacing < hi * spacing;
    MulCancelStrict(q, hi, spacing);
    assert q.Floor == n;
  }

  /** The worked example of a floor grid: (7.3, h, -4.9) with spacing 2
      snaps to (6, 0, -6), whatever the height h. */
  lemma SnapExample(grid: Grid, height: real)
    requires grid.spacing == 2.0
    ensures Snap(Vec3(7.3, height, -4.9), grid, TrackedGrid(Y, 0.0, None)) == Vec3(6.0, 0.0, -6.0)
  {
    SnapCoordinate(7.3, grid.spacing, 3);
    SnapCoordinate(-4.9, grid.spacing, -3);
  }

  /** What the grid query yields for one entity: its Grid and TrackedGrid. */
  datatype TrackedGridRow = TrackedGridRow(grid: Grid, tracked: TrackedGrid)

  predicate PositiveSpacing(grids: map<Entity, TrackedGridRow>)
  {
    forall e :: e in grids ==> grids[e].grid.spacing > 0.0
  }

  /** The position of the one entity matched, or None when zero or several match. */
  ghost function SingleMatch(matches: map<Entity, Vec3>): Option<Vec3>
  {
    if |matches| == 1 then var e :| e in matches; Some(matches[e]) else None
  }

  lemma SingletonKey(matches: map<Entity, Vec3>, e: Entity)
    requires |matches| == 1 && e in matches
    ensures SingleMatch(matches) == Some(matches[e])
  {
    var d :| d in matches && SingleMatch(matches) == Some(matches[d]);
    if d != e {
      assert {d, e} <= matches.Keys;
      assert |{d, e}| == 2;
      assert |matches.Keys| == |matches|;
      SubsetCard({d, e}, matches.Keys);
    }
  }

  lemma SubsetCard<T>(a: set<T>, b: set<T>)
    requires a <= b
    ensures |a| <= |b|
  {
    assert b == a + (b - a);
  }

  /** Transforms after following the generic tracked entity: nothing moves
      unless exactly one entity matches; grids with an override are skipped. */
  ghost function FollowTracked(translation: map<Entity, Vec3>, grids: map<Entity, TrackedGridRow>, matches: map<Entity, Vec3>): map<Entity, Vec3>
    requires PositiveSpacing(grids)
  {
    match SingleMatch(matches)
    case None => translation
    case Some(p) =>
      map e | e in translation ::
        if e in grids && grids[e].tracked.trackingOverride.None?
        then Snap(p, grids[e].grid, grids[e].tracked)
        else translation[e]
  }

  /** The grid has an override entity and that entity has a transform. */
  predicate Follows(tracked: TrackedGrid, globals: map<Entity, Vec3>)
  {
    tracked.trackingOverride.Some? && tracked.trackingOverride.value in globals
  }

  /** Transforms after following each grid's own override entity: grids
      without an override, or whose override has no transform, are skipped. */
  function FollowOverrides(translation: map<Entity, Vec3>, grids: map<Entity, TrackedGridRow>, globals: map<Entity, Vec3>): map<Entity, Vec3>
    requires PositiveSpacing(grids)
  {
    map e | e in translation ::
      if e in grids && Follows(grids[e].tracked, globals)
      then Snap(globals[grids[e].tracked.trackingOverride.value], grids[e].grid, grids[e].tracked)
      else translation[e]
  }

  /** The generic updater never moves anything without exactly one match,
      and never moves a grid that has an override. */
  lemma FollowTrackedSkips(translation: map<Entity, Vec3>, grids: map<Entity, TrackedGridRow>, matches: map<Entity, Vec3>, e: Entity)
    requires PositiveSpacing(grids)
    requires e in translation
    ensures FollowTracked(translation, grids, matches).Keys == translation.Keys
    ensures |matches| != 1 ==> FollowTracked(translation, grids, matches) == translation
    ensures e in grids && grids[e].tracked.trackingOverride.Some? ==> FollowTracked(translation, grids, matches)[e] == translation[e]
    ensures e !in grids ==> FollowTracked(translation, grids, matches)[e] == translation[e]
  {
  }

  /** With exactly one match at p, every grid without an override moves to
      the snap of p. */
  lemma FollowTrackedMoves(translation: map<Entity, Vec3>, grids: map<Entity, TrackedGridRow>, matches: map<Entity, Vec3>, m: Entity, e: Entity)
    requires PositiveSpacing(grids)
    requires |matches| == 1 && m in matches
    requires e in translation && e in grids && grids[e].tracked.trackingOverride.None?
    ensures FollowTracked(translation, grids, matches)[e] == Snap(matches[m], grids[e].grid, grids[e].tracked)
  {
    SingletonKey(matches, m);
  }

  /** An overridden grid follows its override entity whatever else is
      tracked and in whichever order the two updaters run. */
  lemma OverrideIsolation(translation: map<Entity, Vec3>, grids: map<Entity, TrackedGridRow>, matches: map<Entity, Vec3>, globals: map<Entity, Vec3>, e: Entity)
    requires PositiveSpacing(grids)
    requires e in translation && e in grids
    requires grids[e].tracked.trackingOverride.Some? && grids[e].tracked.trackingOverride.value in globals
    ensures FollowOverrides(FollowTracked(translation, grids, matches), grids, globals)[e]
         == Snap(globals[grids[e].tracked.trackingOverride.value], grids[e].grid, grids[e].tracked)
    ensures FollowTracked(FollowOverrides(translation, grids, globals), grids, matches)[e]
         == Snap(globals[grids[e].tracked.trackingOverride.value], grids[e].grid, grids[e].tracked)
  {
    FollowTrackedSkips(translation, grids, matches, e);
    FollowTrackedSkips(FollowOverrides(translation, grids, globals), grids, matches, e);
  }

  /** The two updaters touch disjoint sets of grids, so they commute: the
      unordered schedule has one outcome. */
  lemma UpdatersCommute(translation: map<Entity, Vec3>, grids: map<Entity, TrackedGridRow>, matches: map<Entity, Vec3>, globals: map<Entity, Vec3>)
    requires PositiveSpacing(grids)
    ensures FollowOverrides(FollowTracked(translation, grids, matches), grids, globals)
         == FollowTracked(FollowOverrides(translation, grids, globals), grids, matches)
  {
    var lhs := FollowOverrides(FollowTracked(translation, grids, matches), grids, globals);
    var rhs := FollowTracked(FollowOverrides(translation, grids, globals), grids, matches);
    forall e | e in translation ensures e in lhs && e in rhs && lhs[e] == rhs[e] {
      FollowTrackedSkips(translation, grids, matches, e);
      FollowTrackedSkips(FollowOverrides(translation, grids, globals), grids, matches, e);
    }
  }

  /** The local translations of the entities that have a transform. */
  class GridTransforms {
    var translation: map<Entity, Vec3>

    constructor (translation: map<Entity, Vec3>)
      ensures this.translation == translation
    {
      this.translation := translation;
    }

    /** Moves every tracked grid without an override to the snapped position
        of the single entity in `matches`. */
    method TrackedGridUpdater(grids: map<Entity, TrackedGridRow>, matches: map<Entity, Vec3>)
      requires PositiveSpacing(grids)
      modifies this
      ensures translation == FollowTracked(old(translation), grids, matches)
    {
      if |matches| != 1 {
        return;
      }
      var m :| m in matches;
      SingletonKey(matches, m);
      var position := matches[m];
      var todo := grids.Keys;
      while todo != {}
        invariant todo <= grids.Keys
        invariant translation.Keys == old(translation).Keys
        invariant forall e :: e in translation ==>
          translation[e] == if e in grids && e !in todo && grids[e].tracked.trackingOverride.None?
                            then Snap(position, grids[e].grid, grids[e].tracked)
                            else old(translation)[e]
        decreases todo
      {
        var g :| g in todo;
        todo := todo - {g};
        if g !in translation {
          continue;
        }
        var row := grids[g];
        if row.tracked.trackingOverride.Some? {
          continue;
        }
        translation := translation[g := Snap(position, row.grid, row.tracked)];
      }
    }

    /** Moves every tracked grid with an override to the snapped position of
        its override entity, when that entity has a transform. */
    method CustomTrackedGridUpdater(grids: map<Entity, TrackedGridRow>, globals: map<Entity, Vec3>)
      requires PositiveSpacing(grids)
      modifies this
      ensures translation == FollowOverrides(old(translation), grids, globals)
    {
      var todo := grids.Keys;
      while todo != {}
        invariant todo <= grids.Keys
        invariant translation.Keys == old(translation).Keys
        invariant forall e :: e in translation ==>
          translation[e] == if e in grids && e !in todo && Follows(grids[e].tracked, globals)
                            then Snap(globals[grids[e].tracked.trackingOverride.value], grids[e].grid, grids[e].tracked)
                            else old(translation)[e]
        decreases todo
      {
        var g :| g in todo;
        todo := todo - {g};
        if g !in translation {
          continue;
        }
        var row := grids[g];
        if row.tracked.trackingOverride.None? {
          continue;
        }
        var target := row.tracked.trackingOverride.value;
        if target !in globals {
          continue;
        }
        translation := translation[g := Snap(globals[target], row.grid, row.tracked)];
      }
    }
  }
}
