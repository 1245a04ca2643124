/** The placement of a level's actors in the world (StageImporter.makeStageWorld):
    Okuu and the goal flag on the centres of their tiles, the six hitboxes
    along Okuu's arm, and one zombie fairy per listed position. Positions in
    the level file are in tile units; the world is in world units, a tile
    being TileSideLength wide. The scene-graph nodes, lights and meshes
    that makeStageWorld also creates are not modelled. */
module StageWorld {
  import opened Common
  import opened StageImporter

  /** Where the actors of a level are put. */
  datatype Placement = Placement(Okuu: Vec3, Goal: Vec3, ArmHitboxes: seq<Vec3>, Zombies: seq<Vec3>)

  /** v tile sides of length l, in world units. */
  function Span(v: real, l: real): real
  {
    v * l
  }

  lemma SpanMonotone(a: real, b: real, l: real)
    requires a <= b && l > 0.0
    ensures Span(a, l) <= Span(b, l)
  {
    ScaleMonotone(a, b, l);
  }

  lemma SpanStrict(a: real, b: real, l: real)
    requires a < b && l > 0.0
    ensures Span(a, l) < Span(b, l)
  {
    ScaleStrict(a, b, l);
  }

  /** A value scaled by a positive side lies between its floor and the next
      whole number, scaled alike. */
  lemma SpanWithin(v: real, l: real)
    requires l > 0.0
    ensures Span(v.Floor as real, l) <= Span(v, l) < Span((v.Floor + 1) as real, l)
  {
    SpanMonotone(v.Floor as real, v, l);
    SpanStrict(v, (v.Floor + 1) as real, l);
  }

  /** The floor point p lies on tile (tx, ty) of a grid of side length l. */
  predicate OnTile(p: Vec3, tx: int, ty: int, l: real)
  {
    Span(tx as real, l) <= p.x < Span((tx + 1) as real, l) &&
    Span(ty as real, l) <= p.y < Span((ty + 1) as real, l) &&
    p.z == 0.0
  }

  /** A position in tile units that names a tile: both coordinates whole,
      as the okuu and goal lines give them. */
  predicate Whole(p: Vec2)
  {
    p.x == p.x.Floor as real && p.y == p.y.Floor as real
  }

  /** The centre of the tile at p, in world units, on the floor: how the
      goal flag is placed. */
  function TileCentre(l: int, p: Vec2): Vec3
  {
    Vec3(Span(p.x + 0.5, l as real), Span(p.y + 0.5, l as real), 0.0)
  }

  /** The centre of a tile lies on that tile. */
  lemma TileCentreOnTile(l: int, p: Vec2)
    requires l > 0 && Whole(p)
    ensures OnTile(TileCentre(l, p), p.x.Floor, p.y.Floor, l as real)
  {
    SpanWithin(p.x + 0.5, l as real);
    SpanWithin(p.y + 0.5, l as real);
    assert (p.x + 0.5).Floor == p.x.Floor && (p.y + 0.5).Floor == p.y.Floor;
  }

  /** Okuu's position as makeStageWorld computes it: the column coordinate
      is used for both axes. */
  function OkuuWorldPositionAsWritten(l: int, p: Vec2): (r: Vec3)
    ensures r.x == r.y && r.z == 0.0
  {
    Vec3(Span(p.x + 0.5, l as real), Span(p.x + 0.5, l as real), 0.0)
  }

  /** As written, Okuu stands on the level file's tile exactly when that tile is on the
      diagonal. */
  lemma OkuuAsWrittenOnTileIff(l: int, p: Vec2)
    requires l > 0 && Whole(p)
    ensures OnTile(OkuuWorldPositionAsWritten(l, p), p.x.Floor, p.y.Floor, l as real) <==> p.x == p.y
  {
    var L := l as real;
    var tx, ty := p.x.Floor, p.y.Floor;
    SpanWithin(p.x + 0.5, L);
    assert (p.x + 0.5).Floor == tx;
    if tx > ty {
      SpanMonotone((ty + 1) as real, tx as real, L);
    } else if tx < ty {
      SpanMonotone((tx + 1) as real, ty as real, L);
    }
  }

  /** A level whose okuu line reads `okuu 0 1`, with the tile side 20 of the
      editor's levels, puts Okuu at (10, 10), on tile (0, 0). */
  lemma OkuuAsWrittenOffTile()
    ensures OkuuWorldPositionAsWritten(20, Vec2(0.0, 1.0)) == Vec3(10.0, 10.0, 0.0)
    ensures !OnTile(OkuuWorldPositionAsWritten(20, Vec2(0.0, 1.0)), 0, 1, 20.0)
    ensures OnTile(OkuuWorldPositionAsWritten(20, Vec2(0.0, 1.0)), 0, 0, 20.0)
  {
  }

  /** The two ends of the arm, relative to Okuu. */
  const ArmBegin := Vec3(-0.96, 0.0, 2.97)
  const ArmEnd := Vec3(-2.44, 0.0, 1.96)

  /** A zombie fairy's world position: its tile-unit position scaled by the
      tile side. */
  function ZombieWorldPosition(l: int, p: Vec2): Vec3
  {
    Vec3(Span(p.x, l as real), Span(p.y, l as real), 0.0)
  }

  /** A fairy stands on the tile its position falls in. */
  lemma ZombieOnItsTile(l: int, p: Vec2)
    requires l > 0
    ensures OnTile(ZombieWorldPosition(l, p), p.x.Floor, p.y.Floor, l as real)
  {
    SpanWithin(p.x, l as real);
    SpanWithin(p.y, l as real);
  }

  /** makeStageWorld: Okuu and the goal flag on the centres of their tiles,
      the arm hitboxes at the six points that divide the arm into five equal
      parts, and the fairies in the order of the level file. */
  method MakeStageWorld(data: StageData) returns (w: Placement)
    ensures data.TileSideLength > 0 && Whole(data.OkuuPosition) ==>
      OnTile(w.Okuu, data.OkuuPosition.x.Floor, data.OkuuPosition.y.Floor, data.TileSideLength as real)
    ensures data.TileSideLength > 0 && Whole(data.GoalPosition) ==>
      OnTile(w.Goal, data.GoalPosition.x.Floor, data.GoalPosition.y.Floor, data.TileSideLength as real)
    ensures w.Okuu == TileCentre(data.TileSideLength, data.OkuuPosition)
    ensures w.Goal == TileCentre(data.TileSideLength, data.GoalPosition)
    ensures |w.ArmHitboxes| == 6
    ensures w.ArmHitboxes[0] == ArmBegin && w.ArmHitboxes[5] == ArmEnd
    ensures forall i :: 0 <= i < 5 ==>
      w.ArmHitboxes[i + 1] == w.ArmHitboxes[i].Plus(ArmEnd.Minus(ArmBegin).Scale(0.2))
    ensures |w.Zombies| == |data.ZombiePositions|
    ensures forall i :: 0 <= i < |w.Zombies| ==>
      w.Zombies[i] == ZombieWorldPosition(data.TileSideLength, data.ZombiePositions[i])
  {
    var l := data.TileSideLength as real;
    var okuu := Vec3(Span(data.OkuuPosition.x + 0.5, l), Span(data.OkuuPosition.y + 0.5, l), 0.0);
    var goal := Vec3(Span(data.GoalPosition.x + 0.5, l), Span(data.GoalPosition.y + 0.5, l), 0.0);
    if data.TileSideLength > 0 && Whole(data.OkuuPosition) {
      TileCentreOnTile(data.TileSideLength, data.OkuuPosition);
    }
    if data.TileSideLength > 0 && Whole(data.GoalPosition) {
      TileCentreOnTile(data.TileSideLength, data.GoalPosition);
    }
    var boxes := ArmHitboxes(ArmBegin, ArmEnd);
    var zombies: seq<Vec3> := [];
    for i := 0 to |data.ZombiePositions|
      invariant |zombies| == i
      invariant forall k :: 0 <= k < i ==>
        zombies[k] == ZombieWorldPosition(data.TileSideLength, data.ZombiePositions[k])
    {
      var loc := data.ZombiePositions[i];
      zombies := zombies + [Vec3(Span(loc.x, data.TileSideLength as real), Span(loc.y, data.TileSideLength as real), 0.0)];
    }
    w := Placement(okuu, goal, boxes, zombies);
  }

  /** The hitbox loop of makeStageWorld: Lerp(armBegin, armEnd, i / 5) for
      i = 0 .. 5, so the first and last hitboxes sit on the ends of the arm
      and consecutive ones are a fifth of the arm apart. */
  method ArmHitboxes(armBegin: Vec3, armEnd: Vec3) returns (boxes: seq<Vec3>)
    ensures |boxes| == 6
    ensures boxes[0] == armBegin && boxes[5] == armEnd
    ensures forall i :: 0 <= i < 5 ==> boxes[i + 1] == boxes[i].Plus(armEnd.Minus(armBegin).Scale(0.2))
  {
    boxes := [];
    for i := 0 to 6
      invariant |boxes| == i
      invariant forall k :: 0 <= k < i ==> boxes[k] == Lerp(armBegin, armEnd, k as real / 5.0)
    {
      boxes := boxes + [Lerp(armBegin, armEnd, i as real / 5.0)];
    }
    forall i | 0 <= i < 5
      ensures boxes[i + 1] == boxes[i].Plus(armEnd.Minus(armBegin).Scale(0.2))
    {
      LerpFifths(armBegin, armEnd, i);
    }
    assert 0 as real / 5.0 == 0.0 && 5 as real / 5.0 == 1.0;
    LerpEnds(armBegin, armEnd);
  }

  /** Moving the interpolation parameter by d moves the point by d times the
      segment. */
  lemma LerpStep(a: Vec3, b: Vec3, t: real, d: real)
    ensures Lerp(a, b, t + d) == Lerp(a, b, t).Plus(b.Minus(a).Scale(d))
  {
  }

  /** Points at consecutive fifths of a segment are a fifth of it apart. */
  lemma LerpFifths(a: Vec3, b: Vec3, i: int)
    ensures Lerp(a, b, (i + 1) as real / 5.0) == Lerp(a, b, i as real / 5.0).Plus(b.Minus(a).Scale(0.2))
  {
    var t := i as real / 5.0;
    assert (i + 1) as real / 5.0 == t + 0.2;
    LerpStep(a, b, t, 0.2);
  }

  /** Interpolating by 0 gives the start, by 1 the end. */
  lemma LerpEnds(a: Vec3, b: Vec3)
    ensures Lerp(a, b, 0.0) == a && Lerp(a, b, 1.0) == b
  {
  }
}
