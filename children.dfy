/** Child bookkeeping: the meshers replace a grid's generated children with
    fresh ones, and the reaper despawns the generated children of grids
    whose grid component was removed. The host's entity store is a map from
    entity to record; a record keeps its parent, its marker and what the
    mesher gave it (mesh, material, translation, render layers). */
module Children {
  import opened Lib
  import opened Rendering
  import opened Builder

  /** The marker components that tag generated children. */
  datatype Marker = GridChild | SubGridChild | GridAxisChild

  /** The host's render layers, kept opaque. */
  datatype RenderLayers = RenderLayers(mask: nat)

  datatype Material = Simple(simple: SimpleLineMaterial) | Clipped(clipped: ClippedLineMaterial)

  /** What a mesher attaches to a spawned child. */
  datatype Payload = Payload(mesh: seq<Vec3>, material: Material, translation: Vec3, layers: Option<RenderLayers>)

  datatype EntityRecord = EntityRecord(parent: Option<Entity>, marker: Option<Marker>, payload: Option<Payload>)

  /** The record of a child spawned under parent p with marker m. */
  function ChildRecord(p: Entity, m: Marker, payload: Payload): EntityRecord
  {
    EntityRecord(Some(p), Some(m), Some(payload))
  }

  /** The children of p that carry marker m. */
  function MarkedChildren(es: map<Entity, EntityRecord>, p: Entity, m: Marker): set<Entity>
  {
    set c | c in es && es[c].parent == Some(p) && es[c].marker == Some(m)
  }

  /** Children spawned with consecutive fresh entities from n, one per
      payload, in payload order. */
  function FreshChildren(n: nat, p: Entity, m: Marker, payloads: seq<Payload>): map<Entity, EntityRecord>
  {
    if payloads == [] then map[]
    else
      var last := |payloads| - 1;
      FreshChildren(n, p, m, payloads[..last])[n + last := ChildRecord(p, m, payloads[last])]
  }

  /** The fresh children are the entities n, n + 1, ..., one per payload,
      each holding its own payload. */
  lemma {:induction false} FreshChildrenMembers(n: nat, p: Entity, m: Marker, payloads: seq<Payload>)
    ensures forall e :: e in FreshChildren(n, p, m, payloads) <==> n <= e < n + |payloads|
    ensures forall e :: e in FreshChildren(n, p, m, payloads) ==> FreshChildren(n, p, m, payloads)[e] == ChildRecord(p, m, payloads[e - n])
  {
    if payloads != [] {
      var last := |payloads| - 1;
      FreshChildrenMembers(n, p, m, payloads[..last]);
    }
  }

  /** The store after the marked children of p are replaced by one fresh
      child per payload. */
  function Regenerated(es: map<Entity, EntityRecord>, n: nat, p: Entity, m: Marker, payloads: seq<Payload>): map<Entity, EntityRecord>
  {
    (es - MarkedChildren(es, p, m)) + FreshChildren(n, p, m, payloads)
  }

  /** Every entity of es is below n: n is a fresh entity. */
  predicate Below(es: map<Entity, EntityRecord>, n: nat)
  {
    forall e :: e in es ==> e < n
  }

  /** Removing the marked children of p keeps every other record as it was
      and leaves p with no child carrying m. */
  lemma RegeneratedKeepsOthers(es: map<Entity, EntityRecord>, n: nat, p: Entity, m: Marker, payloads: seq<Payload>, e: Entity)
    requires Below(es, n)
    requires e in es
    ensures e in Regenerated(es, n, p, m, payloads) <==> !(es[e].parent == Some(p) && es[e].marker == Some(m))
    ensures e in Regenerated(es, n, p, m, payloads) ==> Regenerated(es, n, p, m, payloads)[e] == es[e]
  {
    FreshChildrenMembers(n, p, m, payloads);
  }

  /** After regeneration the children of p carrying m are exactly the fresh
      entities, and each holds its own payload. */
  lemma RegeneratedMarked(es: map<Entity, EntityRecord>, n: nat, p: Entity, m: Marker, payloads: seq<Payload>)
    requires Below(es, n)
    ensures forall e :: e in MarkedChildren(Regenerated(es, n, p, m, payloads), p, m) <==> n <= e < n + |payloads|
    ensures forall i :: 0 <= i < |payloads| ==>
      n + i in Regenerated(es, n, p, m, payloads) && Regenerated(es, n, p, m, payloads)[n + i].payload == Some(payloads[i])
  {
    var r := Regenerated(es, n, p, m, payloads);
    FreshChildrenMembers(n, p, m, payloads);
    forall i | 0 <= i < |payloads| ensures n + i in r && r[n + i].payload == Some(payloads[i]) {
      assert n + i in FreshChildren(n, p, m, payloads);
    }
  }

  /** Regeneration is idempotent up to the choice of fresh entities:
      regenerating twice is regenerating once with the second batch of
      entities. */
  lemma RegenerateTwice(es: map<Entity, EntityRecord>, n: nat, p: Entity, m: Marker, payloads: seq<Payload>)
    requires Below(es, n)
    ensures Regenerated(Regenerated(es, n, p, m, payloads), n + |payloads|, p, m, payloads)
         == Regenerated(es, n + |payloads|, p, m, payloads)
  {
    var once := Regenerated(es, n, p, m, payloads);
    var kept := es - MarkedChildren(es, p, m);
    RegeneratedMarked(es, n, p, m, payloads);
    FreshChildrenMembers(n, p, m, payloads);
    forall e | e in once - MarkedChildren(once, p, m) ensures e in kept {
      assert e < n || n + |payloads| <= e;
    }
    assert once - MarkedChildren(once, p, m) == kept;
    assert Regenerated(once, n + |payloads|, p, m, payloads) == kept + FreshChildren(n + |payloads|, p, m, payloads);
  }

  /** Records without a parent are never taken by regeneration. */
  lemma UnparentedSurviveRegeneration(es: map<Entity, EntityRecord>, n: nat, p: Entity, m: Marker, payloads: seq<Payload>, e: Entity)
    requires Below(es, n)
    requires e in es && es[e].parent.None?
    ensures e in Regenerated(es, n, p, m, payloads) && Regenerated(es, n, p, m, payloads)[e] == es[e]
  {
    FreshChildrenMembers(n, p, m, payloads);
  }

  /** The generated children the reaper takes: the entities with marker m
      whose parent is among the removed grids. */
  function Reaped(es: map<Entity, EntityRecord>, removed: set<Entity>, m: Marker): set<Entity>
  {
    set c | c in es && es[c].marker == Some(m) && es[c].parent.Some? && es[c].parent.value in removed
  }

  /** The reaper takes nothing when nothing was removed, never takes an
      unparented record, and takes the marked children of every removed
      grid, so none of them is left. */
  lemma ReapedLaws(es: map<Entity, EntityRecord>, removed: set<Entity>, m: Marker, p: Entity)
    ensures Reaped(es, {}, m) == {}
    ensures forall c :: c in es && es[c].parent.None? ==> c !in Reaped(es, removed, m)
    ensures p in removed ==> MarkedChildren(es, p, m) <= Reaped(es, removed, m)
    ensures p in removed ==> MarkedChildren(es - Reaped(es, removed, m), p, m) == {}
    ensures Reaped(es, removed, m) == set q, c | q in removed && c in MarkedChildren(es, q, m) :: c
  {
    var lhs := Reaped(es, removed, m);
    var rhs := set q, c | q in removed && c in MarkedChildren(es, q, m) :: c;
    forall c | c in lhs ensures c in rhs {
      var q := es[c].parent.value;
      assert c in MarkedChildren(es, q, m);
    }
  }

  /** The vertices of several axis segments, one after another. */
  function AxisLines(size: real, axes: seq<GridAlignment>): (r: seq<Vec3>)
    ensures |r| == 2 * |axes|
  {
    if axes == [] then [] else CreateSingleAxis(size, axes[0]) + AxisLines(size, axes[1..])
  }

  /** The untracked main grid's one child: a floor-plane mesh in the grid's
      colour. */
  function UntrackedMainPayload(grid: Grid, layers: Option<RenderLayers>): Payload
  {
    Payload(MainGridVerticesAndSize(grid, Y).0, Simple(FromColor(grid.color, grid.alphaMode)), ZERO, layers)
  }

  /** The tracked main grid's child: grid plus plane axes, clipped at one
      cell inside the border. */
  function TrackedMainPayload(grid: Grid, tracked: TrackedGrid, axis: Option<GridAxis>, layers: Option<RenderLayers>): Payload
  {
    Payload(
      MainGridVerticesAndSize(grid, tracked.alignment).0 + PlaneAxes(grid.Size(), tracked.alignment),
      Clipped(NewClippedLineMaterial(grid.color, grid.alphaMode, tracked.alignment, ClipRadius(grid), tracked.offset, axis)),
      ZERO,
      layers)
  }

  /** The colour of the tracked grid's own normal axis, if the grid has one. */
  function TrackedAxisColor(tracked: TrackedGrid, axis: Option<GridAxis>): (r: Option<Color>)
    ensures r.Some? <==> axis.Some? && axis.value.GetByAlignment(tracked.alignment).Some?
  {
    if axis.Some? then axis.value.GetByAlignment(tracked.alignment) else None
  }

  /** The normal axis line of a tracked grid, which stays at the origin. */
  function TrackedAxisPayload(grid: Grid, tracked: TrackedGrid, color: Color, layers: Option<RenderLayers>): Payload
  {
    Payload(
      CreateSingleAxis(grid.Size(), tracked.alignment),
      Clipped(NewClippedLineMaterial(color, grid.alphaMode, tracked.alignment, ClipRadius(grid), tracked.offset, None)),
      ZERO,
      layers)
  }

  /** The store after the tracked mesher: the grid child is regenerated
      under p, and the normal axis line, when coloured, is spawned with no
      parent. */
  function TrackedRegenerated(es: map<Entity, EntityRecord>, n: nat, p: Entity, grid: Grid, tracked: TrackedGrid,
                              axis: Option<GridAxis>, layers: Option<RenderLayers>): map<Entity, EntityRecord>
  {
    var main := Regenerated(es, n, p, GridChild, [TrackedMainPayload(grid, tracked, axis, layers)]);
    match TrackedAxisColor(tracked, axis)
    case None => main
    case Some(c) => main[n + 1 := EntityRecord(None, Some(GridChild), Some(TrackedAxisPayload(grid, tracked, c, layers)))]
  }

  /** The tracked axis line is not a child of the grid, so meshing the grid
      again does not replace it: after two runs both lines exist. */
  lemma TrackedAxisLineLeaks(es: map<Entity, EntityRecord>, n: nat, p: Entity, grid: Grid, tracked: TrackedGrid,
                             axis: Option<GridAxis>, layers: Option<RenderLayers>)
    requires Below(es, n)
    requires TrackedAxisColor(tracked, axis).Some?
    ensures var once := TrackedRegenerated(es, n, p, grid, tracked, axis, layers);
            var twice := TrackedRegenerated(once, n + 2, p, grid, tracked, axis, layers);
            && n + 1 in twice && n + 3 in twice
            && twice[n + 1] == twice[n + 3]
            && twice[n + 1].parent.None? && twice[n + 1].marker == Some(GridChild)
  {
    var once := TrackedRegenerated(es, n, p, grid, tracked, axis, layers);
    FreshChildrenMembers(n, p, GridChild, [TrackedMainPayload(grid, tracked, axis, layers)]);
    assert n + 1 in once && once[n + 1].parent.None?;
    assert Below(once, n + 2);
    UnparentedSurviveRegeneration(once, n + 2, p, GridChild, [TrackedMainPayload(grid, tracked, axis, layers)], n + 1);
  }

  /** The sub-grid child: the sub-grid mesh in the tracked plane (the floor
      when untracked), a translation that cancels the vertical nudge, and a
      clipped material exactly when the grid is tracked. */
  function SubGridPayload(grid: Grid, sub: SubGrid, tracked: Option<TrackedGrid>, layers: Option<RenderLayers>): (r: Payload)
    ensures r.material.Clipped? <==> tracked.Some?
    ensures tracked.Some? ==> r.material.clipped.radius == ClipRadius(grid) && r.material.clipped.color == sub.color
    ensures tracked.None? ==> r.material.simple.color == ToLinear(sub.color)
  {
    var alignment := if tracked.Some? then tracked.value.alignment else Y;
    Payload(
      SubGridVertices(grid, sub, alignment),
      if tracked.Some?
      then Clipped(NewClippedLineMaterial(sub.color, grid.alphaMode, tracked.value.alignment, ClipRadius(grid), tracked.value.offset, None))
      else Simple(FromColor(sub.color, grid.alphaMode)),
      SubGridTranslation(alignment),
      layers)
  }

  /** The children of the axis mesher: one per used axis in its own colour,
      then one merged child in the grid colour for the unused axes (or the
      default axes when the grid has no GridAxis), if there are any. */
  function AxisPayloads(grid: Grid, axis: Option<GridAxis>, layers: Option<RenderLayers>): seq<Payload>
  {
    var used := if axis.Some? then axis.value.UsedAxes() else [];
    UsedPayloads(grid, used, layers) + MergedPayload(grid, CommonAxes(axis), layers)
  }

  /** The axes drawn together in the grid colour. */
  function CommonAxes(axis: Option<GridAxis>): seq<GridAlignment>
  {
    if axis.Some? then axis.value.UnusedAxes() else DefaultAxis()
  }

  /** One child per used axis, in that axis's colour. */
  function UsedPayloads(grid: Grid, used: seq<(GridAlignment, Color)>, layers: Option<RenderLayers>): (r: seq<Payload>)
    ensures |r| == |used|
  {
    seq(|used|, i requires 0 <= i < |used| => UsedPayload(grid, used[i], layers))
  }

  function UsedPayload(grid: Grid, entry: (GridAlignment, Color), layers: Option<RenderLayers>): Payload
  {
    Payload(CreateSingleAxis(grid.Size(), entry.0), Simple(FromColor(entry.1, grid.alphaMode)), ZERO, layers)
  }

  /** The merged child of the common axes, none when there are none. */
  function MergedPayload(grid: Grid, common: seq<GridAlignment>, layers: Option<RenderLayers>): (r: seq<Payload>)
    ensures |r| == if common == [] then 0 else 1
  {
    if common == [] then []
    else [Payload(AxisLines(grid.Size(), common), Simple(FromColor(grid.color, grid.alphaMode)), ZERO, layers)]
  }

  /** The axis mesher spawns one child per used axis, in that axis's own
      colour, plus one merged child exactly when some axis is unused. */
  lemma AxisPayloadsShape(grid: Grid, g: GridAxis, layers: Option<RenderLayers>)
    ensures |AxisPayloads(grid, Some(g), layers)| == |g.UsedAxes()| + (if g.UnusedAxes() == [] then 0 else 1)
    ensures forall i :: 0 <= i < |g.UsedAxes()| ==>
      AxisPayloads(grid, Some(g), layers)[i].material == Simple(FromColor(g.UsedAxes()[i].1, grid.alphaMode))
      && g.GetByAlignment(g.UsedAxes()[i].0) == Some(g.UsedAxes()[i].1)
    ensures forall i :: 0 <= i < |g.UsedAxes()| ==>
      AxisPayloads(grid, Some(g), layers)[i].mesh == CreateSingleAxis(grid.Size(), g.UsedAxes()[i].0)
    ensures g.UnusedAxes() != [] ==>
      AxisPayloads(grid, Some(g), layers)[|g.UsedAxes()|].material == Simple(FromColor(grid.color, grid.alphaMode))
      && AxisPayloads(grid, Some(g), layers)[|g.UsedAxes()|].mesh == AxisLines(grid.Size(), g.UnusedAxes())
  {
    var used := g.UsedAxes();
    var ps := AxisPayloads(grid, Some(g), layers);
    var up := UsedPayloads(grid, used, layers);
    assert ps == up + MergedPayload(grid, g.UnusedAxes(), layers);
    forall i | 0 <= i < |used|
      ensures ps[i].material == Simple(FromColor(used[i].1, grid.alphaMode))
      ensures g.GetByAlignment(used[i].0) == Some(used[i].1)
      ensures ps[i].mesh == CreateSingleAxis(grid.Size(), used[i].0)
    {
      assert ps[i] == up[i] == UsedPayload(grid, used[i], layers);
      UsedAxesMembership(g, used[i].0, used[i].1);
    }
    if g.UnusedAxes() != [] {
      assert ps[|used|] == MergedPayload(grid, g.UnusedAxes(), layers)[0];
    }
  }

  /** The axis children are the used-axis children followed by the merged one. */
  lemma AxisPayloadsSplit(grid: Grid, axis: Option<GridAxis>, layers: Option<RenderLayers>,
                          usedPayloads: seq<Payload>, common: seq<GridAlignment>)
    requires usedPayloads == UsedPayloads(grid, if axis.Some? then axis.value.UsedAxes() else [], layers)
    requires common == CommonAxes(axis)
    ensures AxisPayloads(grid, axis, layers) == usedPayloads + MergedPayload(grid, common, layers)
  {
  }

  /** The merged mesh draws nothing along an axis it does not list. */
  lemma {:induction false} AxisLinesAvoid(size: real, axes: seq<GridAlignment>, b: GridAlignment)
    requires b !in axes
    ensures forall k :: 0 <= k < |AxisLines(size, axes)| ==> Component(AxisLines(size, axes)[k], b) == 0.0
  {
    if axes != [] {
      var head := CreateSingleAxis(size, axes[0]);
      var rest := AxisLines(size, axes[1..]);
      AxisLinesAvoid(size, axes[1..], b);
      assert Component(head[1], b) == -Component(head[0], b);
      forall k | 0 <= k < |head + rest| ensures Component((head + rest)[k], b) == 0.0 {
        if k >= 2 {
          assert (head + rest)[k] == rest[k - 2];
        }
      }
    }
  }

  /** Without a GridAxis the mesher spawns a single child in the grid colour
      whose mesh is the X and Z axes and nothing along Y. */
  lemma NoAxisMeansMergedXZ(grid: Grid, layers: Option<RenderLayers>)
    ensures |AxisPayloads(grid, None, layers)| == 1
    ensures AxisPayloads(grid, None, layers)[0].material == Simple(FromColor(grid.color, grid.alphaMode))
    ensures AxisPayloads(grid, None, layers)[0].mesh == CreateSingleAxis(grid.Size(), X) + CreateSingleAxis(grid.Size(), Z)
    ensures forall k :: 0 <= k < |AxisPayloads(grid, None, layers)[0].mesh| ==> AxisPayloads(grid, None, layers)[0].mesh[k].y == 0.0
  {
    var size := grid.Size();
    var lines := AxisLines(size, [X, Z]);
    assert AxisPayloads(grid, None, layers) == UsedPayloads(grid, [], layers) + MergedPayload(grid, [X, Z], layers);
    assert AxisPayloads(grid, None, layers)[0].mesh == lines;
    assert [X, Z][1..] == [Z] && [Z][1..] == [];
    assert lines == CreateSingleAxis(size, X) + AxisLines(size, [Z]);
    assert AxisLines(size, [Z]) == CreateSingleAxis(size, Z) + [];
    AxisLinesAvoid(size, [X, Z], Y);
  }

  /** Spawning the child of payload i extends the fresh children of the
      first i payloads to the first i + 1. */
  lemma SpawnStep(base: map<Entity, EntityRecord>, n: nat, p: Entity, m: Marker, payloads: seq<Payload>, i: nat)
    requires i < |payloads|
    ensures (base + FreshChildren(n, p, m, payloads[..i]))[n + i := ChildRecord(p, m, payloads[i])]
         == base + FreshChildren(n, p, m, payloads[..i + 1])
  {
    assert payloads[..i + 1][..i] == payloads[..i];
  }

  lemma FreshChildrenAppend(n: nat, p: Entity, m: Marker, first: seq<Payload>, second: seq<Payload>)
    ensures FreshChildren(n, p, m, first + second) == FreshChildren(n, p, m, first) + FreshChildren(n + |first|, p, m, second)
  {
    FreshChildrenMembers(n, p, m, first + second);
    FreshChildrenMembers(n, p, m, first);
    FreshChildrenMembers(n + |first|, p, m, second);
  }

  /** Spawning two payload lists one after the other is spawning their
      concatenation. */
  lemma SpawnConcat(kept: map<Entity, EntityRecord>, n: nat, p: Entity, m: Marker, first: seq<Payload>, second: seq<Payload>)
    ensures (kept + FreshChildren(n, p, m, first)) + FreshChildren(n + |first|, p, m, second)
         == kept + FreshChildren(n, p, m, first + second)
  {
    FreshChildrenAppend(n, p, m, first, second);
  }

  /** Despawning the marked children and then spawning the payloads is
      regenerating them. */
  lemma SpawnInOneStep(
    es: map<Entity, EntityRecord>, kept: map<Entity, EntityRecord>, result: map<Entity, EntityRecord>,
    n: nat, p: Entity, m: Marker, payloads: seq<Payload>)
    requires kept == es - MarkedChildren(es, p, m)
    requires result == kept + FreshChildren(n, p, m, payloads)
    ensures result == Regenerated(es, n, p, m, payloads)
  {
  }

  /** Despawning the marked children and then spawning two payload lists
      one after the other regenerates the children from their concatenation. */
  lemma SpawnInTwoSteps(
    es: map<Entity, EntityRecord>, kept: map<Entity, EntityRecord>,
    spawned: map<Entity, EntityRecord>, result: map<Entity, EntityRecord>,
    n: nat, p: Entity, m: Marker, first: seq<Payload>, second: seq<Payload>)
    requires kept == es - MarkedChildren(es, p, m)
    requires spawned == kept + FreshChildren(n, p, m, first)
    requires result == spawned + FreshChildren(n + |first|, p, m, second)
    ensures result == Regenerated(es, n, p, m, first + second)
  {
    SpawnConcat(kept, n, p, m, first, second);
  }

  /** The entities listed in a sequence. */
  function Members(s: seq<Entity>): (r: set<Entity>)
    ensures forall e :: e in r <==> e in s
  {
    set e | e in s
  }

  lemma MembersAppend(s: seq<Entity>, x: Entity)
    ensures Members(s + [x]) == Members(s) + {x}
  {
  }

  /** Adding one removed grid adds exactly its marked children. */
  lemma ReapedStep(es: map<Entity, EntityRecord>, removed: set<Entity>, r: Entity, m: Marker)
    ensures Reaped(es, removed + {r}, m) == Reaped(es, removed, m) + MarkedChildren(es, r, m)
  {
  }

  /** The host's entity store. */
  class World {
    var entities: map<Entity, EntityRecord>
    /** The next entity the store hands out. */
    var next: nat

    ghost predicate Valid()
      reads this
    {
      Below(entities, next)
    }

    constructor ()
      ensures Valid() && entities == map[] && next == 0
    {
      entities := map[];
      next := 0;
    }

    /** Spawns a record under a fresh entity. */
    method Spawn(r: EntityRecord) returns (e: Entity)
      requires Valid()
      modifies this
      ensures Valid()
      ensures e == old(next) && e !in old(entities)
      ensures entities == old(entities)[e := r] && next == old(next) + 1
    {
      e := next;
      entities := entities[e := r];
      next := next + 1;
    }

    /** Detaches and despawns the children of `parent` that carry marker m;
        every other record stays as it was. */
    method DespawnChildrenOfType(parent: Entity, m: Marker)
      requires Valid()
      modifies this
      ensures Valid()
      ensures entities == old(entities) - MarkedChildren(old(entities), parent, m)
      ensures next == old(next)
    {
      var doomed := MarkedChildren(entities, parent, m);
      var todo := doomed;
      while todo != {}
        invariant todo <= doomed
        invariant entities == old(entities) - (doomed - todo)
        invariant next == old(next)
        decreases todo
      {
        var c :| c in todo;
        entities := entities - {c};
        todo := todo - {c};
        assert doomed - todo == (doomed - (todo + {c})) + {c};
      }
    }

    /** Spawns one child of p with marker m per payload, in order. */
    method SpawnChildren(p: Entity, m: Marker, payloads: seq<Payload>)
      requires Valid()
      modifies this
      ensures Valid()
      ensures entities == old(entities) + FreshChildren(old(next), p, m, payloads)
      ensures next == old(next) + |payloads|
    {
      for i := 0 to |payloads|
        invariant Valid()
        invariant entities == old(entities) + FreshChildren(old(next), p, m, payloads[..i])
        invariant next == old(next) + i
      {
        SpawnStep(old(entities), old(next), p, m, payloads, i);
        var _ := Spawn(ChildRecord(p, m, payloads[i]));
      }
      assert payloads[..|payloads|] == payloads;
    }

    /** Re-meshes an untracked grid: its main grid child is replaced. */
    method MainGridMesherUntracked(p: Entity, grid: Grid, layers: Option<RenderLayers>)
      requires Valid()
      modifies this
      ensures Valid()
      ensures entities == Regenerated(old(entities), old(next), p, GridChild, [UntrackedMainPayload(grid, layers)])
      ensures next == old(next) + 1
    {
      var vertices := MainGridVerticesAndSize(grid, Y).0;
      DespawnChildrenOfType(p, GridChild);
      ghost var kept := entities;
      var payload := Payload(vertices, Simple(FromColor(grid.color, grid.alphaMode)), ZERO, layers);
      assert payload == UntrackedMainPayload(grid, layers);
      SpawnChildren(p, GridChild, [payload]);
      SpawnInOneStep(old(entities), kept, entities, old(next), p, GridChild, [payload]);
    }

    /** Re-meshes a tracked grid: the grid child is replaced under p, and
        the normal axis line, when the grid colours it, is spawned on its
        own with no parent. */
    method MainGridMesherTracked(p: Entity, grid: Grid, tracked: TrackedGrid, axis: Option<GridAxis>, layers: Option<RenderLayers>)
      requires Valid()
      modifies this
      ensures Valid()
      ensures entities == TrackedRegenerated(old(entities), old(next), p, grid, tracked, axis, layers)
      ensures next == old(next) + (if TrackedAxisColor(tracked, axis).Some? then 2 else 1)
    {
      var vertices, size := TrackedMainVertices(grid, tracked.alignment);
      DespawnChildrenOfType(p, GridChild);
      var material := NewClippedLineMaterial(grid.color, grid.alphaMode, tracked.alignment, size - grid.spacing, tracked.offset, axis);
      ghost var kept := entities;
      var payload := Payload(vertices, Clipped(material), ZERO, layers);
      assert payload == TrackedMainPayload(grid, tracked, axis, layers);
      SpawnChildren(p, GridChild, [payload]);
      SpawnInOneStep(old(entities), kept, entities, old(next), p, GridChild, [payload]);
      var color := if axis.Some? then axis.value.GetByAlignment(tracked.alignment) else None;
      if color.Some? {
        var axisVertices := CreateSingleAxis(size, tracked.alignment);
        var axisMaterial := NewClippedLineMaterial(color.value, grid.alphaMode, tracked.alignment, size - grid.spacing, tracked.offset, None);
        var _ := Spawn(EntityRecord(None, Some(GridChild), Some(Payload(axisVertices, Clipped(axisMaterial), ZERO, layers))));
      }
    }

    /** Re-meshes a sub-grid: its sub-grid child is replaced. */
    method SubGridMesher(p: Entity, grid: Grid, sub: SubGrid, tracked: Option<TrackedGrid>, layers: Option<RenderLayers>)
      requires Valid()
      modifies this
      ensures Valid()
      ensures entities == Regenerated(old(entities), old(next), p, SubGridChild, [SubGridPayload(grid, sub, tracked, layers)])
      ensures next == old(next) + 1
    {
      var alignment := if tracked.Some? then tracked.value.alignment else Y;
      var vertices := SubGridVertices(grid, sub, alignment);
      DespawnChildrenOfType(p, SubGridChild);
      var material;
      if tracked.Some? {
        material := Clipped(NewClippedLineMaterial(sub.color, grid.alphaMode, tracked.value.alignment, grid.Size() - grid.spacing, tracked.value.offset, None));
      } else {
        material := Simple(FromColor(sub.color, grid.alphaMode));
      }
      ghost var kept := entities;
      var payload := Payload(vertices, material, SubGridTranslation(alignment), layers);
      assert payload == SubGridPayload(grid, sub, tracked, layers);
      SpawnChildren(p, SubGridChild, [payload]);
      SpawnInOneStep(old(entities), kept, entities, old(next), p, SubGridChild, [payload]);
    }

    /** Re-meshes the axis lines of an untracked grid: one child per used
        axis, then a merged child for the common axes. */
    method GridAxisMesher(p: Entity, grid: Grid, axis: Option<GridAxis>, layers: Option<RenderLayers>)
      requires Valid()
      modifies this
      ensures Valid()
      ensures entities == Regenerated(old(entities), old(next), p, GridAxisChild, AxisPayloads(grid, axis, layers))
      ensures next == old(next) + |AxisPayloads(grid, axis, layers)|
    {
      DespawnChildrenOfType(p, GridAxisChild);
      ghost var kept := entities;
      var usedPayloads, common := SpawnUsedAxes(p, grid, axis, layers);
      ghost var spawned := entities;
      SpawnCommonAxes(p, grid, common, layers);
      ghost var merged := MergedPayload(grid, common, layers);
      AxisPayloadsSplit(grid, axis, layers, usedPayloads, common);
      SpawnInTwoSteps(old(entities), kept, spawned, entities, old(next), p, GridAxisChild, usedPayloads, merged);
    }

    /** One child per used axis of the GridAxis, if the grid has one;
        returns those children's payloads and the axes left in common. */
    method SpawnUsedAxes(p: Entity, grid: Grid, axis: Option<GridAxis>, layers: Option<RenderLayers>)
      returns (usedPayloads: seq<Payload>, common: seq<GridAlignment>)
      requires Valid()
      modifies this
      ensures Valid()
      ensures usedPayloads == UsedPayloads(grid, if axis.Some? then axis.value.UsedAxes() else [], layers)
      ensures common == CommonAxes(axis)
      ensures entities == old(entities) + FreshChildren(old(next), p, GridAxisChild, usedPayloads)
      ensures next == old(next) + |usedPayloads|
    {
      common := [];
      usedPayloads := [];
      if axis.Some? {
        var used, unused := axis.value.CreateAxis();
        common := common + unused;
        usedPayloads := UsedPayloads(grid, used, layers);
        SpawnChildren(p, GridAxisChild, usedPayloads);
      } else {
        common := common + DefaultAxis();
        assert entities == old(entities) + map[];
      }
    }

    /** The merged child of the common axes, in the grid colour, when there
        are common axes. */
    method SpawnCommonAxes(p: Entity, grid: Grid, common: seq<GridAlignment>, layers: Option<RenderLayers>)
      requires Valid()
      modifies this
      ensures Valid()
      ensures entities == old(entities) + FreshChildren(old(next), p, GridAxisChild, MergedPayload(grid, common, layers))
      ensures next == old(next) + |MergedPayload(grid, common, layers)|
    {
      if common != [] {
        var vertices := AxisLines(grid.Size(), common);
        SpawnChildren(p, GridAxisChild, [Payload(vertices, Simple(FromColor(grid.color, grid.alphaMode)), ZERO, layers)]);
      } else {
        assert entities == old(entities) + map[];
      }
    }

    /** The marked children that have a parent, grouped by parent. */
    method ChildrenByParent(m: Marker) returns (byParent: map<Entity, seq<Entity>>)
      ensures forall q, c :: q in byParent ==>
        (c in byParent[q] <==> c in entities && entities[c].parent == Some(q) && entities[c].marker == Some(m))
      ensures forall c :: c in entities && entities[c].parent.Some? && entities[c].marker == Some(m) ==>
        entities[c].parent.value in byParent
    {
      var query := set c | c in entities && entities[c].parent.Some? && entities[c].marker == Some(m);
      var todo := query;
      byParent := map[];
      while todo != {}
        invariant todo <= query
        invariant forall q, c :: q in byParent ==>
          (c in byParent[q] <==> c in query && c !in todo && entities[c].parent == Some(q))
        invariant forall c :: c in query && c !in todo ==> entities[c].parent.value in byParent
        decreases todo
      {
        var child :| child in todo;
        var parent := entities[child].parent.value;
        if parent in byParent {
          byParent := byParent[parent := byParent[parent] + [child]];
        } else {
          byParent := byParent[parent := [child]];
        }
        todo := todo - {child};
      }
    }

    /** Despawns the children of `parent` listed in `children`. */
    method DespawnAll(children: seq<Entity>)
      requires Valid()
      modifies this
      ensures Valid()
      ensures entities == old(entities) - Members(children)
      ensures next == old(next)
    {
      for j := 0 to |children|
        invariant Valid()
        invariant entities == old(entities) - Members(children[..j])
        invariant next == old(next)
      {
        entities := entities - {children[j]};
        assert children[..j + 1] == children[..j] + [children[j]];
        MembersAppend(children[..j], children[j]);
      }
      assert children[..|children|] == children;
    }

    /** When grids lose their grid component, despawns their children that
        carry marker m; nothing happens when nothing was removed. */
    method DespawnChildrenUponRemoval(removed: seq<Entity>, m: Marker)
      requires Valid()
      modifies this
      ensures Valid()
      ensures entities == old(entities) - Reaped(old(entities), Members(removed), m)
      ensures next == old(next)
    {
      if |removed| == 0 {
        assert Reaped(entities, Members(removed), m) == {};
        return;
      }
      var byParent := ChildrenByParent(m);
      for i := 0 to |removed|
        invariant Valid()
        invariant entities == old(entities) - Reaped(old(entities), Members(removed[..i]), m)
        invariant next == old(next)
      {
        var r := removed[i];
        ghost var done := Reaped(old(entities), Members(removed[..i]), m);
        if r in byParent {
          DespawnAll(byParent[r]);
          assert Members(byParent[r]) == MarkedChildren(old(entities), r, m);
        } else {
          assert MarkedChildren(old(entities), r, m) == {};
        }
        assert entities == old(entities) - (done + MarkedChildren(old(entities), r, m));
        assert removed[..i + 1] == removed[..i] + [r];
        MembersAppend(removed[..i], r);
        ReapedStep(old(entities), Members(removed[..i]), r, m);
      }
      assert removed[..|removed|] == removed;
    }
  }
}
