/**
 * The pass list a scene hands to the render graph, written as data, and the
 * ordering contract the engine relies on: every pass supplies as many inputs
 * as its shader names samplers, every buffer it reads was written by an
 * earlier pass (or is a loaded image or cubemap), no pass reads a buffer it
 * writes, and only the last pass draws to the screen.
 */
module PassGraph {
  import opened Wrappers
  import Texture

  /** An image resource a pass can read or write. */
  datatype Resource =
    | Cubemap(path: string, extension: string)
    | Image(path: string)
    | Buffer(name: string, width: nat, height: nat, preset: Option<string>)

  /** A shader program: its source, its sampler names in binding order, and its defines. */
  datatype Shader = Shader(path: string, samplers: seq<string>, defines: map<string, string>)

  /** add_pass(inputs, shader, outputs); no outputs means the pass draws to the screen. */
  datatype Pass = Pass(inputs: seq<Resource>, shader: Shader, outputs: seq<Resource>)

  /** Loaded images and cubemaps hold their content from creation on. */
  predicate Loaded(r: Resource)
  {
    !r.Buffer?
  }

  /** A buffer created with an explicit preset names one the preset table knows. */
  predicate KnownPreset(r: Resource)
  {
    r.Buffer? && r.preset.Some? ==> r.preset.value in Texture.PresetNames
  }

  /** Every pass supplies one input per sampler name of its shader. */
  ghost predicate InputsMatchSamplers(ps: seq<Pass>)
  {
    forall i :: 0 <= i < |ps| ==> |ps[i].inputs| == |ps[i].shader.samplers|
  }

  /** Exactly the last pass has an empty output list, that is, draws to the screen. */
  ghost predicate OnlyLastToScreen(ps: seq<Pass>)
  {
    forall i :: 0 <= i < |ps| ==> (ps[i].outputs == [] <==> i == |ps| - 1)
  }

  /** No pass samples a resource it renders into. */
  ghost predicate NoSelfRead(ps: seq<Pass>)
  {
    forall i, r :: 0 <= i < |ps| && r in ps[i].inputs ==> r !in ps[i].outputs
  }

  /** Every resource a pass reads is loaded, in written, or an output of an earlier pass. */
  ghost predicate ReadsAfterWrites(ps: seq<Pass>, written: seq<Resource>)
  {
    forall i, r :: 0 <= i < |ps| && r in ps[i].inputs ==>
      Loaded(r) || r in written || exists j :: 0 <= j < i && r in ps[j].outputs
  }

  /** Every buffer a pass mentions uses a known preset. */
  ghost predicate PresetsKnown(ps: seq<Pass>)
  {
    && (forall i, r :: 0 <= i < |ps| && r in ps[i].inputs ==> KnownPreset(r))
    && (forall i, r :: 0 <= i < |ps| && r in ps[i].outputs ==> KnownPreset(r))
  }

  /** The whole contract, with written the buffers already filled before the first pass. */
  ghost predicate ValidFrom(ps: seq<Pass>, written: seq<Resource>)
  {
    InputsMatchSamplers(ps) && OnlyLastToScreen(ps) && NoSelfRead(ps) &&
    ReadsAfterWrites(ps, written) && PresetsKnown(ps)
  }

  /** The contract for a scene's pass list, which starts with no buffer written. */
  ghost predicate ValidGraph(ps: seq<Pass>)
  {
    ValidFrom(ps, [])
  }

  /** The conditions ValidFrom puts on the first pass alone. */
  predicate HeadOk(p: Pass, last: bool, written: seq<Resource>)
  {
    && |p.inputs| == |p.shader.samplers|
    && (p.outputs == [] <==> last)
    && (forall r :: r in p.inputs ==> r !in p.outputs && (Loaded(r) || r in written) && KnownPreset(r))
    && (forall r :: r in p.outputs ==> KnownPreset(r))
  }

  /** A pass-by-pass check of ValidFrom, walking the list in registration order. */
  predicate Check(ps: seq<Pass>, written: seq<Resource>)
    decreases |ps|
  {
    ps == [] ||
    (HeadOk(ps[0], |ps| == 1, written) && Check(ps[1..], written + ps[0].outputs))
  }

  /** One step of Check from pass k, for walking a constant pass list from its end. */
  lemma CheckStep(ps: seq<Pass>, k: nat, written: seq<Resource>)
    requires k < |ps|
    requires HeadOk(ps[k], k == |ps| - 1, written)
    requires Check(ps[k + 1..], written + ps[k].outputs)
    ensures Check(ps[k..], written)
  {
    assert ps[k..][1..] == ps[k + 1..];
  }

  /** ValidFrom of a non-empty list splits into its first pass and the rest. */
  lemma HeadTail(ps: seq<Pass>, written: seq<Resource>)
    requires ps != []
    ensures ValidFrom(ps, written) <==>
            HeadOk(ps[0], |ps| == 1, written) && ValidFrom(ps[1..], written + ps[0].outputs)
  {
    var p, tail, w' := ps[0], ps[1..], written + ps[0].outputs;
    assert forall i :: 0 <= i < |tail| ==> tail[i] == ps[i + 1];
    if ValidFrom(ps, written) {
      assert ReadsAfterWrites(tail, w') by {
        forall i, r | 0 <= i < |tail| && r in tail[i].inputs
          ensures Loaded(r) || r in w' || exists j :: 0 <= j < i && r in tail[j].outputs
        {
          assert r in ps[i + 1].inputs;
          if !Loaded(r) && r !in written {
            var j :| 0 <= j < i + 1 && r in ps[j].outputs;
            if j > 0 {
              assert r in tail[j - 1].outputs;
            }
          }
        }
      }
      assert OnlyLastToScreen(tail) by {
        forall i | 0 <= i < |tail| ensures tail[i].outputs == [] <==> i == |tail| - 1 {
          assert ps[i + 1].outputs == [] <==> i + 1 == |ps| - 1;
        }
      }
      assert HeadOk(p, |ps| == 1, written) by {
        assert ps[0].outputs == [] <==> 0 == |ps| - 1;
      }
    }
    if HeadOk(p, |ps| == 1, written) && ValidFrom(tail, w') {
      assert ReadsAfterWrites(ps, written) by {
        forall i, r | 0 <= i < |ps| && r in ps[i].inputs
          ensures Loaded(r) || r in written || exists j :: 0 <= j < i && r in ps[j].outputs
        {
          if i > 0 {
            assert r in tail[i - 1].inputs;
            if !Loaded(r) && r !in written {
              if r in p.outputs {
                assert r in ps[0].outputs;
              } else {
                var j :| 0 <= j < i - 1 && r in tail[j].outputs;
                assert r in ps[j + 1].outputs;
              }
            }
          }
        }
      }
      assert OnlyLastToScreen(ps) by {
        forall i | 0 <= i < |ps| ensures ps[i].outputs == [] <==> i == |ps| - 1 {
          if i > 0 {
            assert tail[i - 1].outputs == [] <==> i - 1 == |tail| - 1;
          }
        }
      }
      assert NoSelfRead(ps) by {
        forall i, r | 0 <= i < |ps| && r in ps[i].inputs ensures r !in ps[i].outputs {
          if i > 0 { assert r in tail[i - 1].inputs; }
        }
      }
      assert InputsMatchSamplers(ps) by {
        forall i | 0 <= i < |ps| ensures |ps[i].inputs| == |ps[i].shader.samplers| {
          if i > 0 { assert ps[i] == tail[i - 1]; }
        }
      }
      assert PresetsKnown(ps) by {
        forall i, r | 0 <= i < |ps| && r in ps[i].inputs ensures KnownPreset(r) {
          if i > 0 { assert r in tail[i - 1].inputs; }
        }
        forall i, r | 0 <= i < |ps| && r in ps[i].outputs ensures KnownPreset(r) {
          if i > 0 { assert r in tail[i - 1].outputs; }
        }
      }
    }
  }

  /** The pass-by-pass check decides the contract exactly. */
  lemma {:induction false} CheckIff(ps: seq<Pass>, written: seq<Resource>)
    ensures Check(ps, written) <==> ValidFrom(ps, written)
    decreases |ps|
  {
    if ps != [] {
      HeadTail(ps, written);
      CheckIff(ps[1..], written + ps[0].outputs);
    }
  }
}
