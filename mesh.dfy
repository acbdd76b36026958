/**
 * What `draw_mesh_layer_perspective` computes and draws (renderer.rb:208-333).
 * A first loop transforms every vertex of the interleaved buffer (stride 5:
 * x, y, z, u, v) into a buffer of stride 3 (screen x, screen y, inv_depth); a
 * second loop walks the index buffer three indices at a time, drops a triangle
 * whose signed screen area is negative, shades it flat and draws it, then
 * outlines it with three lines when wireframe drawing is on.
 */
module MeshPass {
  import opened Wrappers
  import opened Vectors
  import opened CameraModel
  import opened Numerics
  import opened DrawLog
  import opened Actors

  function NumVertices(m: Actor): nat
    requires m.MeshActor?
  {
    |m.vertices| / 5
  }

  function NumTriangles(m: Actor): nat
    requires m.MeshActor?
  {
    |m.indices| / 3
  }

  /** Where vertex `j` lies in the stride-5 buffer: its fields are at 5j .. 5j+4. */
  lemma VertexInBuffer(m: Actor, j: int)
    requires m.MeshActor? && 0 <= j < NumVertices(m)
    ensures 0 <= j * 5 && j * 5 + 4 < |m.vertices|
  {
  }

  function VertexPosition(m: Actor, j: int): Vec3
    requires m.MeshActor? && 0 <= j < NumVertices(m)
  {
    VertexInBuffer(m, j);
    Vec3(m.vertices[j * 5], m.vertices[j * 5 + 1], m.vertices[j * 5 + 2])
  }

  /** The texture coordinates of vertex `j`, at offsets 3 and 4 of its record. */
  function TexCoord(m: Actor, j: int): (real, real)
    requires m.MeshActor? && 0 <= j < NumVertices(m)
  {
    VertexInBuffer(m, j);
    (m.vertices[j * 5 + 3], m.vertices[j * 5 + 4])
  }

  function VertexDepth(m: Actor, v: View, j: int): real
    requires m.MeshActor? && 0 <= j < NumVertices(m)
  {
    Dot(Sub(VertexPosition(m, j), v.position), v.forward)
  }

  /** The index buffer only names vertices of the vertex buffer. */
  predicate IndicesInRange(m: Actor)
    requires m.MeshActor?
  {
    forall k :: 0 <= k < NumTriangles(m) * 3 ==> 0 <= m.indices[k] < NumVertices(m)
  }

  /**
   * The divisor `@zoom / 1.0 / (dot_product + Float::EPSILON)` exists for every
   * vertex; over the reals that excludes a depth of exactly −ε.
   */
  predicate DivisorsDefined(m: Actor, v: View)
    requires m.MeshActor?
  {
    forall j :: 0 <= j < NumVertices(m) ==> VertexDepth(m, v, j) + FloatEpsilon != 0.0
  }

  predicate Drawable(m: Actor, v: View) {
    m.MeshActor? && IndicesInRange(m) && DivisorsDefined(m, v)
  }

  /** What the first loop stores for vertex `j`: screen x, screen y and the divisor (inv_depth). */
  function Transformed(m: Actor, v: View, env: Env, j: int): Vec3
    requires m.MeshActor? && DivisorsDefined(m, v) && 0 <= j < NumVertices(m)
  {
    var c := Sub(VertexPosition(m, j), v.position);
    var divisor := v.zoom / 1.0 / (VertexDepth(m, v, j) + FloatEpsilon);
    Vec3(Dot(c, v.right) * divisor * env.screenCx, Dot(c, v.up) * divisor * env.screenCy, divisor)
  }

  /** `buf` is the transformed buffer of `m`: three values per vertex, in vertex order. */
  predicate IsTransformedBuffer(buf: seq<real>, m: Actor, v: View, env: Env)
    requires m.MeshActor? && DivisorsDefined(m, v)
  {
    |buf| == NumVertices(m) * 3 &&
    forall j :: 0 <= j < NumVertices(m) ==>
      buf[j * 3] == Transformed(m, v, env, j).x &&
      buf[j * 3 + 1] == Transformed(m, v, env, j).y &&
      buf[j * 3 + 2] == Transformed(m, v, env, j).z
  }

  /** The `c`-th index (0, 1 or 2) of triangle `t`. */
  function CornerIndex(m: Actor, t: int, c: int): (idx: int)
    requires m.MeshActor? && IndicesInRange(m) && 0 <= t < NumTriangles(m) && 0 <= c < 3
    ensures 0 <= idx < NumVertices(m)
  {
    m.indices[t * 3 + c]
  }

  /** The transformed `c`-th corner of triangle `t`. */
  function Corner(m: Actor, v: View, env: Env, t: int, c: int): Vec3
    requires Drawable(m, v) && 0 <= t < NumTriangles(m) && 0 <= c < 3
  {
    Transformed(m, v, env, CornerIndex(m, t, c))
  }

  /** edge1ₓ·edge2ᵧ − edge1ᵧ·edge2ₓ, twice the signed screen area, positive counter-clockwise. */
  function SignedArea(p1: Vec3, p2: Vec3, p3: Vec3): real {
    (p2.x - p1.x) * (p3.y - p1.y) - (p2.y - p1.y) * (p3.x - p1.x)
  }

  /** The pseudo-normal of the triangle in (screen x, screen y, inv_depth) space. */
  function Normal(p1: Vec3, p2: Vec3, p3: Vec3): Vec3 {
    Cross(Sub(p2, p1), Sub(p3, p1))
  }

  /** The back-face test: a triangle survives unless its signed area is negative. */
  predicate Kept(m: Actor, v: View, env: Env, t: int)
    requires Drawable(m, v) && 0 <= t < NumTriangles(m)
  {
    SignedArea(Corner(m, v, env, t, 0), Corner(m, v, env, t, 1), Corner(m, v, env, t, 2)) >= 0.0
  }

  /**
   * Shading needs a non-zero normal: for a zero normal `1.0 / Math.sqrt(0.0)`
   * is Infinity, the scaled normal is NaN, and `to_i` on NaN raises.
   */
  predicate Shadable(m: Actor, v: View, env: Env, t: int)
    requires Drawable(m, v) && 0 <= t < NumTriangles(m)
  {
    var n := Normal(Corner(m, v, env, t, 0), Corner(m, v, env, t, 1), Corner(m, v, env, t, 2));
    Dot(n, n) > 0.0
  }

  /** `light_dir`: (0.75, 0, 0.5) divided by its length. */
  function LightDir(env: Env): Vec3
    requires env.Valid()
  {
    var length := env.Sqrt(0.75 * 0.75 + 0.0 * 0.0 + 0.5 * 0.5);
    Vec3(0.75 / length, 0.0 / length, 0.5 / length)
  }

  /** `intensity`: the light direction dotted with the normal scaled by its reciprocal length. */
  function Intensity(env: Env, n: Vec3): real
    requires env.Valid() && Dot(n, n) > 0.0
  {
    Dot(Scale(n, 1.0 / env.Sqrt(Dot(n, n))), LightDir(env))
  }

  /** The filled triangle drawn for triangle `t`. */
  function TriangleRecord(m: Actor, v: View, env: Env, t: int): DrawCall
    requires env.Valid() && Drawable(m, v) && 0 <= t < NumTriangles(m) && Shadable(m, v, env, t)
  {
    var p1, p2, p3 := Corner(m, v, env, t, 0), Corner(m, v, env, t, 1), Corner(m, v, env, t, 2);
    var intensity := Intensity(env, Normal(p1, p2, p3));
    var uv1, uv2, uv3 := TexCoord(m, CornerIndex(m, t, 0)), TexCoord(m, CornerIndex(m, t, 1)), TexCoord(m, CornerIndex(m, t, 2));
    Triangle(p1.x, p1.y, p2.x, p2.y, p3.x, p3.y,
             Trunc(intensity * 128.0), Trunc(intensity * 128.0), Trunc(intensity * 255.0), 255,
             m.path, uv1.0, uv1.1, uv2.0, uv2.1, uv3.0, uv3.1, None)
  }

  /** The wireframe colour (255, 128, 255, 255), stroke width 1. */
  function WireLine(p: Vec3, q: Vec3): DrawCall {
    Line2(p.x, p.y, q.x, q.y, 255, 128, 255, 255, 1)
  }

  /** The outline: v1→v2, v2→v3, v3→v1. */
  function Outline(m: Actor, v: View, env: Env, t: int): seq<DrawCall>
    requires Drawable(m, v) && 0 <= t < NumTriangles(m)
  {
    var p1, p2, p3 := Corner(m, v, env, t, 0), Corner(m, v, env, t, 1), Corner(m, v, env, t, 2);
    [WireLine(p1, p2), WireLine(p2, p3), WireLine(p3, p1)]
  }

  /** What one pass of the triangle loop does. */
  datatype Step = Culled | Raises | Emits(draws: seq<DrawCall>)

  function TriangleStep(m: Actor, v: View, env: Env, wireframe: bool, t: int): Step
    requires env.Valid() && Drawable(m, v) && 0 <= t < NumTriangles(m)
  {
    if !Kept(m, v, env, t) then Culled
    else if !Shadable(m, v, env, t) then Raises
    else Emits([TriangleRecord(m, v, env, t)] + (if wireframe then Outline(m, v, env, t) else []))
  }

  /** The step of every triangle of `m`, in index-buffer order. */
  function Steps(m: Actor, v: View, env: Env, wireframe: bool): (steps: seq<Step>)
    requires env.Valid() && Drawable(m, v)
    ensures |steps| == NumTriangles(m)
  {
    seq(NumTriangles(m), t requires 0 <= t < NumTriangles(m) => TriangleStep(m, v, env, wireframe, t))
  }

  /** The records appended so far, and whether the pass has stopped on a raised error. */
  datatype Emission = Emission(draws: seq<DrawCall>, raised: bool)

  /** The effect of running `steps` in order: draws accumulate, and a raise stops the pass. */
  function Run(steps: seq<Step>): Emission {
    if steps == [] then Emission([], false)
    else
      var e := Run(steps[..|steps| - 1]);
      if e.raised then e
      else match steps[|steps| - 1]
        case Culled => e
        case Raises => Emission(e.draws, true)
        case Emits(d) => Emission(e.draws + d, false)
  }

  /** The positions of the steps that were not culled, in order. */
  function Surviving(steps: seq<Step>): (idx: seq<int>)
    ensures forall q :: 0 <= q < |idx| ==> 0 <= idx[q] < |steps| && !steps[idx[q]].Culled?
    ensures forall i :: 0 <= i < |steps| && !steps[i].Culled? ==> i in idx
    ensures forall p, q :: 0 <= p < q < |idx| ==> idx[p] < idx[q]
  {
    if steps == [] then []
    else
      var init := steps[..|steps| - 1];
      assert forall i :: 0 <= i < |init| ==> init[i] == steps[i];
      Surviving(init) + (if !steps[|steps| - 1].Culled? then [|steps| - 1] else [])
  }

  /** A run raises exactly when one of its steps raises. */
  lemma {:induction false} RunRaisesIff(steps: seq<Step>)
    ensures Run(steps).raised <==> exists i :: 0 <= i < |steps| && steps[i].Raises?
  {
    if steps != [] {
      var init := steps[..|steps| - 1];
      RunRaisesIff(init);
      if exists i :: 0 <= i < |init| && init[i].Raises? {
        var i :| 0 <= i < |init| && init[i].Raises?;
        assert steps[i] == init[i];
      }
      if exists i :: 0 <= i < |steps| && steps[i].Raises? {
        var i :| 0 <= i < |steps| && steps[i].Raises?;
        if i < |init| {
          assert init[i] == steps[i];
        }
      }
    }
  }

  lemma MulSucc(w: nat, n: nat)
    ensures w * (n + 1) == w * n + w
  {
  }

  lemma {:induction false} MulMono(w: nat, q: nat, n: nat)
    requires q < n
    ensures 0 <= w * q && w * q + w <= w * n
    decreases n - q
  {
    MulSucc(w, q);
    if q + 1 < n {
      MulMono(w, q + 1, n);
      MulSucc(w, q + 1);
    }
  }

  /** `d` consists of the blocks `blocks`, each of length `w`, in order. */
  ghost predicate IsBlocked<T>(d: seq<T>, blocks: seq<seq<T>>, w: nat) {
    |d| == w * |blocks| &&
    forall q :: 0 <= q < |blocks| ==> 0 <= w * q && w * q + w <= |d| && d[w * q .. w * q + w] == blocks[q]
  }

  /** Appending one more block of length `w` keeps a sequence blocked. */
  lemma AppendBlock<T>(d: seq<T>, blocks: seq<seq<T>>, b: seq<T>, w: nat)
    requires IsBlocked(d, blocks, w) && |b| == w
    ensures IsBlocked(d + b, blocks + [b], w)
  {
    MulSucc(w, |blocks|);
    forall q | 0 <= q < |blocks| + 1
      ensures 0 <= w * q && w * q + w <= |d + b| && (d + b)[w * q .. w * q + w] == (blocks + [b])[q]
    {
      if q < |blocks| {
        MulMono(w, q, |blocks|);
        assert (d + b)[w * q .. w * q + w] == d[w * q .. w * q + w];
      } else {
        assert w * q == |d|;
        assert (d + b)[w * q .. w * q + w] == b;
      }
    }
  }

  /** The records a step draws: none unless it emits. */
  function Drawn(step: Step): seq<DrawCall> {
    if step.Emits? then step.draws else []
  }

  /** A step that does not emit adds nothing to the log. */
  lemma NothingDrawn(log: seq<DrawCall>, step: Step)
    requires !step.Emits?
    ensures log + Drawn(step) == log
  {
  }

  /** The draws of the surviving steps, in order. */
  function SurvivingBlocks(steps: seq<Step>): (blocks: seq<seq<DrawCall>>)
    ensures |blocks| == |Surviving(steps)|
    ensures forall q :: 0 <= q < |blocks| ==> blocks[q] == Drawn(steps[Surviving(steps)[q]])
  {
    seq(|Surviving(steps)|, q requires 0 <= q < |Surviving(steps)| => Drawn(steps[Surviving(steps)[q]]))
  }

  /**
   * A run without raises in which every emitting step draws `w` records lays
   * them out in blocks of `w`: block `q` is the draws of the `q`-th surviving step.
   */
  lemma {:induction false} RunLayout(steps: seq<Step>, w: nat)
    requires forall i :: 0 <= i < |steps| ==> !steps[i].Raises?
    requires forall i :: 0 <= i < |steps| && steps[i].Emits? ==> |steps[i].draws| == w
    ensures !Run(steps).raised
    ensures IsBlocked(Run(steps).draws, SurvivingBlocks(steps), w)
  {
    if steps != [] {
      var n := |steps| - 1;
      var init := steps[..n];
      assert forall i :: 0 <= i < |init| ==> init[i] == steps[i];
      RunLayout(init, w);
      var d0, s0 := Run(init).draws, Surviving(init);
      var d, s := Run(steps).draws, Surviving(steps);
      var blocks0 := SurvivingBlocks(init);
      if steps[n].Emits? {
        assert d == d0 + steps[n].draws;
        assert s == s0 + [n];
        AppendBlock(d0, blocks0, steps[n].draws, w);
        assert SurvivingBlocks(steps) == blocks0 + [steps[n].draws];
      } else {
        assert steps[n].Culled?;
        assert d == d0 && s == s0;
        assert SurvivingBlocks(steps) == blocks0;
      }
    }
  }

  /** One more step of a run that has not raised: it raises only if the step does, and adds the step's draws. */
  lemma RunExtend(steps: seq<Step>, j: int)
    requires 0 <= j < |steps| && !Run(steps[..j]).raised
    ensures Run(steps[..j + 1]).raised <==> steps[j].Raises?
    ensures Run(steps[..j + 1]).draws == Run(steps[..j]).draws + Drawn(steps[j])
  {
    assert steps[..j + 1][..j] == steps[..j];
  }

  lemma AppendAssoc(a: seq<DrawCall>, b: seq<DrawCall>, c: seq<DrawCall>)
    ensures a + (b + c) == (a + b) + c
  {
  }

  /** Once a run has raised, the remaining steps change nothing. */
  lemma {:induction false} RunStopsAtRaise(steps: seq<Step>, k: int)
    requires 0 <= k <= |steps| && Run(steps[..k]).raised
    ensures Run(steps) == Run(steps[..k])
    decreases |steps| - k
  {
    if k < |steps| {
      assert steps[..k + 1][..k] == steps[..k];
      RunStopsAtRaise(steps, k + 1);
    } else {
      assert steps[..k] == steps;
    }
  }

  /** Everything the triangle loop does for one actor. */
  function MeshActorEmission(m: Actor, v: View, env: Env, wireframe: bool): Emission
    requires env.Valid() && Drawable(m, v)
  {
    Run(Steps(m, v, env, wireframe))
  }

  predicate AllDrawable(actors: seq<Actor>, v: View) {
    forall i :: 0 <= i < |actors| ==> Drawable(actors[i], v)
  }

  /** Some actor has a vertex, so the pass's vertex loop reads the camera basis (renderer.rb:227-243). */
  predicate ReadsBasis(actors: seq<Actor>) {
    exists i :: 0 <= i < |actors| && actors[i].MeshActor? && NumVertices(actors[i]) > 0
  }

  /** Every actor's emission, in layer order. */
  function ActorEmissions(actors: seq<Actor>, v: View, env: Env, wireframe: bool): (ems: seq<Emission>)
    requires env.Valid() && AllDrawable(actors, v)
    ensures |ems| == |actors|
    ensures forall i :: 0 <= i < |actors| ==> ems[i] == MeshActorEmission(actors[i], v, env, wireframe)
  {
    seq(|actors|, i requires 0 <= i < |actors| => MeshActorEmission(actors[i], v, env, wireframe))
  }

  /** The actor loop over the actors' emissions in order: draws accumulate, and a raise ends the pass. */
  function Chain(ems: seq<Emission>): Emission {
    if ems == [] then Emission([], false)
    else
      var e := Chain(ems[..|ems| - 1]);
      if e.raised then e
      else Emission(e.draws + ems[|ems| - 1].draws, ems[|ems| - 1].raised)
  }

  /** The whole perspective mesh pass over `actors`. */
  function MeshLayer(actors: seq<Actor>, v: View, env: Env, wireframe: bool): Emission
    requires env.Valid() && AllDrawable(actors, v)
  {
    Chain(ActorEmissions(actors, v, env, wireframe))
  }

  /**
   * One more actor of a pass that has not raised: if the log held the pass so
   * far and the actor appended its draws, it holds the longer pass, which has
   * raised exactly when the actor did.
   */
  lemma ChainExtend(ems: seq<Emission>, i: int, log0: seq<DrawCall>, before: seq<DrawCall>, after: seq<DrawCall>)
    requires 0 <= i < |ems| && !Chain(ems[..i]).raised
    requires before == log0 + Chain(ems[..i]).draws
    requires after == before + ems[i].draws
    ensures Chain(ems[..i + 1]).raised == ems[i].raised
    ensures after == log0 + Chain(ems[..i + 1]).draws
  {
    assert ems[..i + 1][..i] == ems[..i];
    AppendAssoc(log0, Chain(ems[..i]).draws, ems[i].draws);
  }

  /** Once an actor has raised, the remaining actors draw nothing. */
  lemma {:induction false} ChainStopsAtRaise(ems: seq<Emission>, k: int)
    requires 0 <= k <= |ems| && Chain(ems[..k]).raised
    ensures Chain(ems) == Chain(ems[..k])
    decreases |ems| - k
  {
    if k < |ems| {
      assert ems[..k + 1][..k] == ems[..k];
      ChainStopsAtRaise(ems, k + 1);
    } else {
      assert ems[..k] == ems;
    }
  }

  /** The triangles of `m` that survive the back-face test, in index-buffer order. */
  function KeptTriangles(m: Actor, v: View, env: Env, wireframe: bool): (kept: seq<int>)
    requires env.Valid() && Drawable(m, v)
    ensures forall q :: 0 <= q < |kept| ==> 0 <= kept[q] < NumTriangles(m) && Kept(m, v, env, kept[q])
    ensures forall t :: 0 <= t < NumTriangles(m) && Kept(m, v, env, t) ==> t in kept
    ensures forall p, q :: 0 <= p < q < |kept| ==> kept[p] < kept[q]
  {
    StepsCulledIff(m, v, env, wireframe);
    Surviving(Steps(m, v, env, wireframe))
  }

  /** A triangle's step is `Culled` exactly when the triangle is not kept. */
  lemma StepsCulledIff(m: Actor, v: View, env: Env, wireframe: bool)
    requires env.Valid() && Drawable(m, v)
    ensures forall t :: 0 <= t < NumTriangles(m) ==> (Steps(m, v, env, wireframe)[t].Culled? <==> !Kept(m, v, env, t))
  {
  }

  /** One triangle raises exactly when it survives the back-face test with a zero normal. */
  lemma StepRaises(m: Actor, v: View, env: Env, wireframe: bool, t: int)
    requires env.Valid() && Drawable(m, v) && 0 <= t < NumTriangles(m)
    ensures TriangleStep(m, v, env, wireframe, t).Raises? <==> Kept(m, v, env, t) && !Shadable(m, v, env, t)
  {
  }

  /** The triangle loop raises exactly when some surviving triangle has a zero normal. */
  lemma MeshRaisesIff(m: Actor, v: View, env: Env, wireframe: bool)
    requires env.Valid() && Drawable(m, v)
    ensures MeshActorEmission(m, v, env, wireframe).raised <==>
            exists t :: 0 <= t < NumTriangles(m) && Kept(m, v, env, t) && !Shadable(m, v, env, t)
  {
    var steps := Steps(m, v, env, wireframe);
    RunRaisesIff(steps);
    forall t | 0 <= t < NumTriangles(m)
      ensures steps[t].Raises? <==> Kept(m, v, env, t) && !Shadable(m, v, env, t)
    {
      StepRaises(m, v, env, wireframe, t);
    }
  }

  /** A triangle that is kept only when it is shadable never raises, and emits its record and outline. */
  lemma StepShape(m: Actor, v: View, env: Env, wireframe: bool, t: int)
    requires env.Valid() && Drawable(m, v) && 0 <= t < NumTriangles(m)
    requires Kept(m, v, env, t) ==> Shadable(m, v, env, t)
    ensures !TriangleStep(m, v, env, wireframe, t).Raises?
    ensures TriangleStep(m, v, env, wireframe, t).Emits? <==> Kept(m, v, env, t)
    ensures Kept(m, v, env, t) ==>
              TriangleStep(m, v, env, wireframe, t).draws ==
              [TriangleRecord(m, v, env, t)] + (if wireframe then Outline(m, v, env, t) else [])
  {
  }

  /** What a surviving, shadable triangle draws: its record, then its outline when wireframe is on. */
  function TriangleBlock(m: Actor, v: View, env: Env, wireframe: bool, t: int): seq<DrawCall>
    requires env.Valid() && Drawable(m, v) && 0 <= t < NumTriangles(m) && Shadable(m, v, env, t)
  {
    [TriangleRecord(m, v, env, t)] + (if wireframe then Outline(m, v, env, t) else [])
  }

  /** A kept, shadable triangle emits exactly its block. */
  lemma DrawnBlock(m: Actor, v: View, env: Env, wireframe: bool, t: int)
    requires env.Valid() && Drawable(m, v) && 0 <= t < NumTriangles(m)
    requires Kept(m, v, env, t) && Shadable(m, v, env, t)
    ensures TriangleStep(m, v, env, wireframe, t).Emits?
    ensures Drawn(TriangleStep(m, v, env, wireframe, t)) == TriangleBlock(m, v, env, wireframe, t)
  {
  }

  /** The triangle loop's draws, cut into one block per surviving triangle. */
  lemma MeshBlocks(m: Actor, v: View, env: Env, wireframe: bool, w: nat)
    requires env.Valid() && Drawable(m, v)
    requires forall t :: 0 <= t < NumTriangles(m) && Kept(m, v, env, t) ==> Shadable(m, v, env, t)
    requires w == if wireframe then 4 else 1
    ensures !MeshActorEmission(m, v, env, wireframe).raised
    ensures var kept := KeptTriangles(m, v, env, wireframe);
            forall q :: 0 <= q < |kept| ==> Shadable(m, v, env, kept[q])
    ensures var d, kept := MeshActorEmission(m, v, env, wireframe).draws, KeptTriangles(m, v, env, wireframe);
            |d| == w * |kept| &&
            forall q :: 0 <= q < |kept| ==>
              0 <= w * q && w * q + w <= |d| &&
              d[w * q .. w * q + w] == TriangleBlock(m, v, env, wireframe, kept[q])
  {
    var steps := Steps(m, v, env, wireframe);
    forall i | 0 <= i < |steps|
      ensures !steps[i].Raises?
      ensures steps[i].Emits? ==> |steps[i].draws| == w
    {
      StepShape(m, v, env, wireframe, i);
    }
    RunLayout(steps, w);
    var kept, blocks := Surviving(steps), SurvivingBlocks(steps);
    forall q | 0 <= q < |kept|
      ensures blocks[q] == TriangleBlock(m, v, env, wireframe, kept[q])
    {
      StepShape(m, v, env, wireframe, kept[q]);
    }
  }

  /**
   * When no surviving triangle is degenerate, the triangle loop draws exactly
   * the surviving triangles, in index-buffer order: without wireframe one
   * filled triangle each; with wireframe the filled triangle immediately
   * followed by its three outline lines.
   */
  lemma MeshLayout(m: Actor, v: View, env: Env, wireframe: bool)
    requires env.Valid() && Drawable(m, v)
    requires forall t :: 0 <= t < NumTriangles(m) && Kept(m, v, env, t) ==> Shadable(m, v, env, t)
    ensures !MeshActorEmission(m, v, env, wireframe).raised
    ensures var d, kept := MeshActorEmission(m, v, env, wireframe).draws, KeptTriangles(m, v, env, wireframe);
            !wireframe ==>
              |d| == |kept| &&
              forall q :: 0 <= q < |kept| ==> d[q] == TriangleRecord(m, v, env, kept[q])
    ensures var d, kept := MeshActorEmission(m, v, env, wireframe).draws, KeptTriangles(m, v, env, wireframe);
            wireframe ==>
              |d| == 4 * |kept| &&
              forall q :: 0 <= q < |kept| ==>
                d[4 * q] == TriangleRecord(m, v, env, kept[q]) &&
                d[4 * q + 1 .. 4 * q + 4] == Outline(m, v, env, kept[q])
  {
    var w := if wireframe then 4 else 1;
    MeshBlocks(m, v, env, wireframe, w);
    var d, kept := MeshActorEmission(m, v, env, wireframe).draws, KeptTriangles(m, v, env, wireframe);
    if wireframe {
      forall q | 0 <= q < |kept|
        ensures d[4 * q] == TriangleRecord(m, v, env, kept[q])
        ensures d[4 * q + 1 .. 4 * q + 4] == Outline(m, v, env, kept[q])
      {
        assert d[4 * q .. 4 * q + 4] == TriangleBlock(m, v, env, wireframe, kept[q]);
        assert d[4 * q] == d[4 * q .. 4 * q + 4][0];
        assert d[4 * q + 1 .. 4 * q + 4] == d[4 * q .. 4 * q + 4][1..];
      }
    } else {
      forall q | 0 <= q < |kept|
        ensures d[q] == TriangleRecord(m, v, env, kept[q])
      {
        assert d[q .. q + 1] == TriangleBlock(m, v, env, wireframe, kept[q]);
        assert d[q] == d[q .. q + 1][0];
      }
    }
  }

  /** Triangle `t` is drawn exactly when its signed area is not negative (given it is shadable). */
  lemma CullingTest(m: Actor, v: View, env: Env, wireframe: bool, t: int)
    requires env.Valid() && Drawable(m, v) && 0 <= t < NumTriangles(m)
    ensures TriangleStep(m, v, env, wireframe, t).Culled? <==>
            SignedArea(Corner(m, v, env, t, 0), Corner(m, v, env, t, 1), Corner(m, v, env, t, 2)) < 0.0
    ensures TriangleStep(m, v, env, wireframe, t).Emits? <==>
            SignedArea(Corner(m, v, env, t, 0), Corner(m, v, env, t, 1), Corner(m, v, env, t, 2)) >= 0.0 &&
            Shadable(m, v, env, t)
  {
  }

  /** The counter-clockwise unit triangle survives the test and its mirror image does not. */
  lemma WindingExample()
    ensures SignedArea(Vec3(0.0, 0.0, 0.0), Vec3(1.0, 0.0, 0.0), Vec3(0.0, 1.0, 0.0)) > 0.0
    ensures SignedArea(Vec3(0.0, 0.0, 0.0), Vec3(0.0, 1.0, 0.0), Vec3(1.0, 0.0, 0.0)) < 0.0
  {
  }

  /** The signed area is the third component of the normal, so a culled triangle is never shaded. */
  lemma AreaIsNormalZ(p1: Vec3, p2: Vec3, p3: Vec3)
    ensures Normal(p1, p2, p3).z == SignedArea(p1, p2, p3)
  {
  }

  /**
   * A triangle whose three indices name the same vertex is not culled (its
   * area is zero) and has a zero normal, so the triangle loop raises on it.
   */
  lemma RepeatedVertexRaises(m: Actor, v: View, env: Env, wireframe: bool, t: int)
    requires env.Valid() && Drawable(m, v) && 0 <= t < NumTriangles(m)
    requires CornerIndex(m, t, 0) == CornerIndex(m, t, 1) == CornerIndex(m, t, 2)
    ensures TriangleStep(m, v, env, wireframe, t) == Raises
  {
    var p := Corner(m, v, env, t, 0);
    assert Sub(p, p) == Vec3(0.0, 0.0, 0.0);
  }

  /**
   * The triangle record carries the transformed corners, the untransformed
   * texture coordinates, r = g = trunc(intensity·128), b = trunc(intensity·255),
   * opaque alpha, the actor's path and no blend mode.
   */
  lemma TriangleRecordFields(m: Actor, v: View, env: Env, t: int)
    requires env.Valid() && Drawable(m, v) && 0 <= t < NumTriangles(m) && Shadable(m, v, env, t)
    ensures var d := TriangleRecord(m, v, env, t);
            var p1, p2, p3 := Corner(m, v, env, t, 0), Corner(m, v, env, t, 1), Corner(m, v, env, t, 2);
            var i1, i2, i3 := CornerIndex(m, t, 0), CornerIndex(m, t, 1), CornerIndex(m, t, 2);
            var intensity := Intensity(env, Normal(p1, p2, p3));
            d.Triangle? &&
            d.x1 == p1.x && d.y1 == p1.y && d.x2 == p2.x && d.y2 == p2.y && d.x3 == p3.x && d.y3 == p3.y &&
            d.u1 == m.vertices[i1 * 5 + 3] && d.v1 == m.vertices[i1 * 5 + 4] &&
            d.u2 == m.vertices[i2 * 5 + 3] && d.v2 == m.vertices[i2 * 5 + 4] &&
            d.u3 == m.vertices[i3 * 5 + 3] && d.v3 == m.vertices[i3 * 5 + 4] &&
            d.r == d.g == Trunc(intensity * 128.0) && d.b == Trunc(intensity * 255.0) && d.a == 255 &&
            d.path == m.path && d.blendmode == None
  {
    VertexInBuffer(m, CornerIndex(m, t, 0));
    VertexInBuffer(m, CornerIndex(m, t, 1));
    VertexInBuffer(m, CornerIndex(m, t, 2));
  }

  /**
   * Truncation keeps the colour channels in range for an intensity in [0, 1]:
   * r, g in 0..128 and b in 0..255, reaching (128, 128, 255) at intensity 1.
   */
  lemma ColourChannels(intensity: real)
    requires 0.0 <= intensity <= 1.0
    ensures 0 <= Trunc(intensity * 128.0) <= 128
    ensures 0 <= Trunc(intensity * 255.0) <= 255
    ensures intensity == 1.0 ==> Trunc(intensity * 128.0) == 128 && Trunc(intensity * 255.0) == 255
  {
  }
}
