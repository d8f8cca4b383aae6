/**
 * The bloom scene (scene5/main.js): the region the camera may walk in, the
 * wall-sliding rule of free_move, and the scene's fixed pass list.
 * Positions are real numbers; the move vector is an input.
 */
module Scene5 {
  import opened Wrappers
  import opened PassGraph

  /** The corridor along x = 0, open for every y. */
  predicate InCorridor(x: real)
  {
    -2.0 < x < 2.0
  }

  /** The opening beyond x = 20. */
  predicate InExit(x: real, y: real)
  {
    x > 20.0 && 10.0 < y < 14.0
  }

  /** The ring around the inner block 2 < x < 16, 6 < y < 18. */
  predicate InRing(x: real, y: real)
  {
    2.0 < x < 20.0 && 2.0 < y < 22.0 && !(x < 16.0 && 6.0 < y < 18.0)
  }

  /** in_bound(x, y); the else of the nested if belongs to the inner if. */
  function InBound(x: real, y: real): (r: bool)
    ensures -2.0 < x < 2.0 ==> r
    ensures x > 20.0 && 10.0 < y < 14.0 ==> r
    ensures 2.0 < x < 16.0 && 6.0 < y < 18.0 ==> !r
    ensures x == -2.0 || x == 2.0 || x == 20.0 ==> !r
    ensures r <==> InCorridor(x) || InExit(x, y) || InRing(x, y)
  {
    if x > -2.0 && x < 2.0 then true
    else if x > 20.0 && y > 10.0 && y < 14.0 then true
    else if x > 2.0 && x < 20.0 && y > 2.0 && y < 22.0 then
      if x > 2.0 && x < 16.0 && y > 6.0 && y < 18.0 then false else true
    else false
  }

  /**
   * Where free_move leaves (x, z) when the move proposes (nx, nz): the first
   * in-bounds candidate of both axes, z alone, x alone, or no move at all.
   */
  function Slide(x: real, z: real, nx: real, nz: real): (p: (real, real))
    ensures p == (nx, nz) || p == (x, nz) || p == (nx, z) || p == (x, z)
    ensures p == (x, z) || InBound(p.0, p.1)
    ensures InBound(x, z) ==> InBound(p.0, p.1)
    ensures InBound(nx, nz) ==> p == (nx, nz)
  {
    if InBound(nx, nz) then (nx, nz)
    else if InBound(x, nz) then (x, nz)
    else if InBound(nx, z) then (nx, z)
    else (x, z)
  }

  /**
   * The position-update part of free_move: view_pos holds (x, y, z) and the
   * move (dx, dz) is given; only view_pos[0] and view_pos[2] may change.
   */
  method FreeMove(viewPos: array<real>, dx: real, dz: real)
    requires viewPos.Length == 3
    modifies viewPos
    ensures InBound(old(viewPos[0]) + dx, old(viewPos[2]) + dz) ==>
              viewPos[0] == old(viewPos[0]) + dx && viewPos[2] == old(viewPos[2]) + dz
    ensures !InBound(old(viewPos[0]) + dx, old(viewPos[2]) + dz) && InBound(old(viewPos[0]), old(viewPos[2]) + dz) ==>
              viewPos[0] == old(viewPos[0]) && viewPos[2] == old(viewPos[2]) + dz
    ensures !InBound(old(viewPos[0]) + dx, old(viewPos[2]) + dz) && !InBound(old(viewPos[0]), old(viewPos[2]) + dz) &&
            InBound(old(viewPos[0]) + dx, old(viewPos[2])) ==>
              viewPos[0] == old(viewPos[0]) + dx && viewPos[2] == old(viewPos[2])
    ensures !InBound(old(viewPos[0]) + dx, old(viewPos[2]) + dz) && !InBound(old(viewPos[0]), old(viewPos[2]) + dz) &&
            !InBound(old(viewPos[0]) + dx, old(viewPos[2])) ==>
              viewPos[0] == old(viewPos[0]) && viewPos[2] == old(viewPos[2])
    ensures (viewPos[0], viewPos[2]) == Slide(old(viewPos[0]), old(viewPos[2]), old(viewPos[0]) + dx, old(viewPos[2]) + dz)
    ensures viewPos[1] == old(viewPos[1])
    ensures InBound(old(viewPos[0]), old(viewPos[2])) ==> InBound(viewPos[0], viewPos[2])
  {
    var newX := viewPos[0] + dx;
    var newZ := viewPos[2] + dz;
    if InBound(newX, newZ) {
      viewPos[0] := newX;
      viewPos[2] := newZ;
    } else if InBound(viewPos[0], newZ) {
      viewPos[2] := newZ;
    } else if InBound(newX, viewPos[2]) {
      viewPos[0] := newX;
    }
  }

  /** The (x, z) position after one free_move per frame, for the given per-frame moves. */
  function Walk(x: real, z: real, moves: seq<(real, real)>): (real, real)
    decreases |moves|
  {
    if moves == [] then (x, z)
    else
      var p := Slide(x, z, x + moves[0].0, z + moves[0].1);
      Walk(p.0, p.1, moves[1..])
  }

  /** However many frames run, a position that starts in bounds stays in bounds. */
  lemma {:induction false} WalkStaysInBound(x: real, z: real, moves: seq<(real, real)>)
    requires InBound(x, z)
    ensures InBound(Walk(x, z, moves).0, Walk(x, z, moves).1)
    decreases |moves|
  {
    if moves != [] {
      var p := Slide(x, z, x + moves[0].0, z + moves[0].1);
      WalkStaysInBound(p.0, p.1, moves[1..]);
    }
  }

  /** The start position (50, 12) is in bounds, so every walk from it stays in bounds. */
  lemma WalkFromStart(moves: seq<(real, real)>)
    ensures InBound(Walk(50.0, 12.0, moves).0, Walk(50.0, 12.0, moves).1)
  {
    WalkStaysInBound(50.0, 12.0, moves);
  }

  // The resources and shaders the scene loads and creates.
  const Sky: Resource := Cubemap("../assets/gloomy", "jpg")
  const Buffer1: Resource := Buffer("buffer1", 400, 300, None)
  const Buffer2: Resource := Buffer("buffer2", 400, 300, None)
  const Mip0: Resource := Buffer("mip0", 400, 300, Some("LINEAR_CLAMP"))
  const Mip1: Resource := Buffer("mip1", 300, 225, Some("LINEAR_CLAMP"))
  const Mip2: Resource := Buffer("mip2", 200, 150, Some("LINEAR_CLAMP"))
  const Mip3: Resource := Buffer("mip3", 100, 75, Some("LINEAR_CLAMP"))

  const SkyShader: Shader := Shader("shader.glsl", ["sky"], map[])
  const MixShader: Shader := Shader("mix.glsl", ["first", "second"], map[])
  const BlurShader: Shader := Shader("../util/blur.glsl", ["iChannel0"], map[])
  const DownsampleShader: Shader := Shader("../util/downsample.glsl", ["srcTexture"], map[])
  const UpsampleShader: Shader := Shader("../util/upsample.glsl", ["srcTexture"], map[])
  const TonemapShader: Shader := Shader("../util/tonemap.glsl", ["image"], map[])
  const DitherShader: Shader := Shader("../util/dither.glsl", ["image"], map[])

  /** The passes in registration order: sky, a downsample/upsample chain, mix, tonemap, dither. */
  const Passes: seq<Pass> := [
    Pass([Sky], SkyShader, [Buffer1]),
    Pass([Buffer1], DownsampleShader, [Mip1]),
    Pass([Mip1], DownsampleShader, [Mip2]),
    Pass([Mip2], DownsampleShader, [Mip3]),
    Pass([Mip3], UpsampleShader, [Mip2]),
    Pass([Mip2], UpsampleShader, [Mip1]),
    Pass([Mip1], UpsampleShader, [Mip0]),
    Pass([Buffer1, Mip0], MixShader, [Buffer2]),
    Pass([Buffer2], TonemapShader, [Buffer1]),
    Pass([Buffer1], DitherShader, [])
  ]

  /** The scene's pass list meets the render graph's ordering and sampler-count contract. */
  lemma PassesValid()
    ensures ValidGraph(Passes)
    ensures |Passes| == 10 && |Passes[7].inputs| == 2 == |MixShader.samplers|
  {
    var ps := Passes;
    assert Check(ps[10..], [Buffer1, Mip1, Mip2, Mip3, Mip2, Mip1, Mip0, Buffer2, Buffer1]);
    assert Check(ps[9..], [Buffer1, Mip1, Mip2, Mip3, Mip2, Mip1, Mip0, Buffer2, Buffer1]) by {
      assert [Buffer1, Mip1, Mip2, Mip3, Mip2, Mip1, Mip0, Buffer2, Buffer1] + ps[9].outputs == [Buffer1, Mip1, Mip2, Mip3, Mip2, Mip1, Mip0, Buffer2, Buffer1];
      CheckStep(ps, 9, [Buffer1, Mip1, Mip2, Mip3, Mip2, Mip1, Mip0, Buffer2, Buffer1]);
    }
    assert Check(ps[8..], [Buffer1, Mip1, Mip2, Mip3, Mip2, Mip1, Mip0, Buffer2]) by {
      assert [Buffer1, Mip1, Mip2, Mip3, Mip2, Mip1, Mip0, Buffer2] + ps[8].outputs == [Buffer1, Mip1, Mip2, Mip3, Mip2, Mip1, Mip0, Buffer2, Buffer1];
      CheckStep(ps, 8, [Buffer1, Mip1, Mip2, Mip3, Mip2, Mip1, Mip0, Buffer2]);
    }
    assert Check(ps[7..], [Buffer1, Mip1, Mip2, Mip3, Mip2, Mip1, Mip0]) by {
      assert [Buffer1, Mip1, Mip2, Mip3, Mip2, Mip1, Mip0] + ps[7].outputs == [Buffer1, Mip1, Mip2, Mip3, Mip2, Mip1, Mip0, Buffer2];
      CheckStep(ps, 7, [Buffer1, Mip1, Mip2, Mip3, Mip2, Mip1, Mip0]);
    }
    assert Check(ps[6..], [Buffer1, Mip1, Mip2, Mip3, Mip2, Mip1]) by {
      assert [Buffer1, Mip1, Mip2, Mip3, Mip2, Mip1] + ps[6].outputs == [Buffer1, Mip1, Mip2, Mip3, Mip2, Mip1, Mip0];
      CheckStep(ps, 6, [Buffer1, Mip1, Mip2, Mip3, Mip2, Mip1]);
    }
    assert Check(ps[5..], [Buffer1, Mip1, Mip2, Mip3, Mip2]) by {
      assert [Buffer1, Mip1, Mip2, Mip3, Mip2] + ps[5].outputs == [Buffer1, Mip1, Mip2, Mip3, Mip2, Mip1];
      CheckStep(ps, 5, [Buffer1, Mip1, Mip2, Mip3, Mip2]);
    }
    assert Check(ps[4..], [Buffer1, Mip1, Mip2, Mip3]) by {
      assert [Buffer1, Mip1, Mip2, Mip3] + ps[4].outputs == [Buffer1, Mip1, Mip2, Mip3, Mip2];
      CheckStep(ps, 4, [Buffer1, Mip1, Mip2, Mip3]);
    }
    assert Check(ps[3..], [Buffer1, Mip1, Mip2]) by {
      assert [Buffer1, Mip1, Mip2] + ps[3].outputs == [Buffer1, Mip1, Mip2, Mip3];
      CheckStep(ps, 3, [Buffer1, Mip1, Mip2]);
    }
    assert Check(ps[2..], [Buffer1, Mip1]) by {
      assert [Buffer1, Mip1] + ps[2].outputs == [Buffer1, Mip1, Mip2];
      CheckStep(ps, 2, [Buffer1, Mip1]);
    }
    assert Check(ps[1..], [Buffer1]) by {
      assert [Buffer1] + ps[1].outputs == [Buffer1, Mip1];
      CheckStep(ps, 1, [Buffer1]);
    }
    assert Check(ps[0..], []) by {
      assert [] + ps[0].outputs == [Buffer1];
      CheckStep(ps, 0, []);
    }
    assert ps[0..] == ps;
    CheckIff(ps, []);
  }
}
