/**
 * The corridor scene (scene7/main.js): the collision test, the wall-sliding
 * rule of free_move, and the scene's fixed pass list. Positions are real
 * numbers; the move vector is an input.
 */
module Scene7 {
  import opened Wrappers
  import opened PassGraph

  /** The collision radius d of test_collide. */
  const D: real := 0.5

  /** The integer part of r, rounded toward zero. */
  function Trunc(r: real): (t: int)
    ensures r >= 0.0 ==> t as real <= r < t as real + 1.0
    ensures r <= 0.0 ==> t as real - 1.0 < r <= t as real
  {
    if r >= 0.0 then r.Floor else -((-r).Floor)
  }

  /** JavaScript's y % 16: the remainder of the division rounded toward zero, with the sign of y. */
  function Rem16(y: real): (r: real)
    ensures y >= 0.0 ==> 0.0 <= r < 16.0
    ensures y <= 0.0 ==> -16.0 < r <= 0.0
  {
    y - 16.0 * (Trunc(y / 16.0) as real)
  }

  /** The folded coordinate u of test_collide: y % 16 for positive y, 16 + y % 16 otherwise. */
  function Fold(y: real): (u: real)
    ensures y > 0.0 ==> 0.0 <= u < 16.0
    ensures y <= 0.0 ==> 0.0 < u <= 16.0
  {
    if y > 0.0 then Rem16(y) else 16.0 + Rem16(y)
  }

  /** test_collide(x, y): outside the walls, or on an obstacle of the 16-unit period. */
  function TestCollide(x: real, y: real): (r: bool)
    ensures x < -2.5 || x > 2.5 ==> r
    ensures -2.5 <= x <= -2.0 || 1.1 <= x <= 2.5 ==> !r
    ensures -2.0 < x < 1.1 ==> (r <==> Fold(y) < 2.0 || Fold(y) > 3.8)
  {
    if x - D < -3.0 || x + D > 3.0 then true
    else
      var u := Fold(y);
      if x - D > -2.5 && x + D < 1.6 && (u + D < 2.5 || u - D > 3.3) then true
      else false
  }

  /** The position of y within its period, by floored division (the reference form of the fold). */
  function PeriodPos(y: real): (m: real)
    ensures 0.0 <= m < 16.0
  {
    y - 16.0 * ((y / 16.0).Floor as real)
  }

  /** The collision region stated with PeriodPos: the walls |x| > 2.5 and, within -2 < x < 1.1, all but the gap 2 <= m <= 3.8. */
  predicate Blocked(x: real, y: real)
  {
    x < -2.5 || x > 2.5 || (-2.0 < x < 1.1 && (PeriodPos(y) < 2.0 || PeriodPos(y) > 3.8))
  }

  /** The fold agrees with the period position, except that it gives 16 where the latter gives 0. */
  lemma FoldIsPeriodPos(y: real)
    ensures Fold(y) == PeriodPos(y) || (Fold(y) == 16.0 && PeriodPos(y) == 0.0)
  {
    var q := y / 16.0;
    assert y == 16.0 * q;
    if y <= 0.0 {
      var k := (-q).Floor;
      assert Trunc(q) == -k;
      if q == -(k as real) {
        assert q.Floor == -k;
      } else {
        assert -(k as real) - 1.0 < q < -(k as real);
        assert q.Floor == -k - 1;
      }
    }
  }

  /** Shifting y by one period leaves the period position unchanged. */
  lemma PeriodPosShift(y: real)
    ensures PeriodPos(y + 16.0) == PeriodPos(y)
  {
    var q := y / 16.0;
    assert (y + 16.0) / 16.0 == q + 1.0;
    assert (q + 1.0).Floor == q.Floor + 1;
  }

  /** test_collide decides exactly the reference region. */
  lemma TestCollideIsBlocked(x: real, y: real)
    ensures TestCollide(x, y) == Blocked(x, y)
  {
    FoldIsPeriodPos(y);
  }

  /** test_collide repeats every 16 units along y. */
  lemma TestCollidePeriodic(x: real, y: real)
    ensures TestCollide(x, y + 16.0) == TestCollide(x, y)
  {
    TestCollideIsBlocked(x, y);
    TestCollideIsBlocked(x, y + 16.0);
    PeriodPosShift(y);
  }

  /**
   * Where free_move leaves (x, z) when the move proposes (nx, nz): the first
   * free candidate of both axes, x alone, z alone, or no move at all.
   */
  function Slide(x: real, z: real, nx: real, nz: real): (p: (real, real))
    ensures p == (nx, nz) || p == (nx, z) || p == (x, nz) || p == (x, z)
    ensures p == (x, z) || !TestCollide(p.0, p.1)
    ensures !TestCollide(x, z) ==> !TestCollide(p.0, p.1)
    ensures !TestCollide(nx, nz) ==> p == (nx, nz)
  {
    if !TestCollide(nx, nz) then (nx, nz)
    else if !TestCollide(nx, z) then (nx, z)
    else if !TestCollide(x, nz) then (x, nz)
    else (x, z)
  }

  /**
   * The position-update part of free_move: view_pos holds (x, y, z) and the
   * move (dx, dz) is given; only view_pos[0] and view_pos[2] may change.
   */
  method FreeMove(viewPos: array<real>, dx: real, dz: real)
    requires viewPos.Length == 3
    modifies viewPos
    ensures !TestCollide(old(viewPos[0]) + dx, old(viewPos[2]) + dz) ==>
              viewPos[0] == old(viewPos[0]) + dx && viewPos[2] == old(viewPos[2]) + dz
    ensures TestCollide(old(viewPos[0]) + dx, old(viewPos[2]) + dz) && !TestCollide(old(viewPos[0]) + dx, old(viewPos[2])) ==>
              viewPos[0] == old(viewPos[0]) + dx && viewPos[2] == old(viewPos[2])
    ensures TestCollide(old(viewPos[0]) + dx, old(viewPos[2]) + dz) && TestCollide(old(viewPos[0]) + dx, old(viewPos[2])) &&
            !TestCollide(old(viewPos[0]), old(viewPos[2]) + dz) ==>
              viewPos[0] == old(viewPos[0]) && viewPos[2] == old(viewPos[2]) + dz
    ensures TestCollide(old(viewPos[0]) + dx, old(viewPos[2]) + dz) && TestCollide(old(viewPos[0]) + dx, old(viewPos[2])) &&
            TestCollide(old(viewPos[0]), old(viewPos[2]) + dz) ==>
              viewPos[0] == old(viewPos[0]) && viewPos[2] == old(viewPos[2])
    ensures (viewPos[0], viewPos[2]) == Slide(old(viewPos[0]), old(viewPos[2]), old(viewPos[0]) + dx, old(viewPos[2]) + dz)
    ensures viewPos[1] == old(viewPos[1])
    ensures !TestCollide(old(viewPos[0]), old(viewPos[2])) ==> !TestCollide(viewPos[0], viewPos[2])
  {
    var newX := viewPos[0] + dx;
    var newZ := viewPos[2] + dz;
    if !TestCollide(newX, newZ) {
      viewPos[0] := newX;
      viewPos[2] := newZ;
    } else if !TestCollide(newX, viewPos[2]) {
      viewPos[0] := newX;
    } else if !TestCollide(viewPos[0], newZ) {
      viewPos[2] := newZ;
    }
  }

  /** The (x, z) position after one free_move per frame, for the given per-frame moves. */
  function Walk(x: real, z: real, moves: seq<(real, real)>): (real, real)
    decreases |moves|
  {
    if moves == [] then (x, z)
    else
      var p := Slide(x, z, x + moves[0].0, z + moves[0].1);
      Walk(p.0, p.1, moves[1..])
  }

  /** However many frames run, a position that starts free stays free. */
  lemma {:induction false} WalkStaysFree(x: real, z: real, moves: seq<(real, real)>)
    requires !TestCollide(x, z)
    ensures !TestCollide(Walk(x, z, moves).0, Walk(x, z, moves).1)
    decreases |moves|
  {
    if moves != [] {
      var p := Slide(x, z, x + moves[0].0, z + moves[0].1);
      WalkStaysFree(p.0, p.1, moves[1..]);
    }
  }

  /** The start position (2, 20) is free, so every walk from it stays free. */
  lemma WalkFromStart(moves: seq<(real, real)>)
    ensures !TestCollide(Walk(2.0, 20.0, moves).0, Walk(2.0, 20.0, moves).1)
  {
    WalkStaysFree(2.0, 20.0, moves);
  }

  // The resources and shaders the scene loads and creates.
  const Albedo: Resource := Image("../assets/asphalt/albedo.jpg")
  const Normal: Resource := Image("../assets/asphalt/normal.jpg")
  const Roughness: Resource := Image("../assets/asphalt/roughness.jpg")
  const Graffiti: Resource := Image("graffiti.png")
  const Buffer1: Resource := Buffer("buffer1", 400, 300, None)
  const Buffer2: Resource := Buffer("buffer2", 400, 300, None)

  const MaterialShader: Shader :=
    Shader("shader.glsl", ["mat_albedo", "mat_normal", "mat_roughness", "graffiti"], map[])
  const TonemapShader: Shader :=
    Shader("../util/tonemap.glsl", ["image"], map["GAMMA" := "2.2", "EXPOSURE" := "2.0"])
  const DitherShader: Shader := Shader("../util/dither.glsl", ["image"], map[])

  /** The passes in registration order: material shading, tonemap, dither to the screen. */
  const Passes: seq<Pass> := [
    Pass([Albedo, Normal, Roughness, Graffiti], MaterialShader, [Buffer1]),
    Pass([Buffer1], TonemapShader, [Buffer2]),
    Pass([Buffer2], DitherShader, [])
  ]

  /** The scene's pass list meets the render graph's ordering and sampler-count contract. */
  lemma PassesValid()
    ensures ValidGraph(Passes)
    ensures |MaterialShader.samplers| == 4 && |TonemapShader.samplers| == 1 && |DitherShader.samplers| == 1
  {
    var ps := Passes;
    assert Check(ps[3..], [Buffer1, Buffer2]);
    assert Check(ps[2..], [Buffer1, Buffer2]) by {
      CheckStep(ps, 2, [Buffer1, Buffer2]);
    }
    assert Check(ps[1..], [Buffer1]) by {
      assert [Buffer1] + ps[1].outputs == [Buffer1, Buffer2];
      CheckStep(ps, 1, [Buffer1]);
    }
    assert Check(ps[0..], []) by {
      assert [] + ps[0].outputs == [Buffer1];
      CheckStep(ps, 0, []);
    }
    assert ps[0..] == ps;
    CheckIff(ps, []);
  }
}
