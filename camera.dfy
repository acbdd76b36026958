/**
 * The camera record the application assigns to `Renderer.camera`, and the view
 * basis that `calc_camera` derives from it every frame (renderer.rb:25-64).
 */
module CameraModel {
  import opened Vectors
  import opened Numerics

  /** The `@camera` hash: position `x, y, z`, `target`, the up hint `up_x, up_y, up_z`, `fov` in degrees, `zoom`. */
  datatype Camera = Camera(position: Vec3, target: Vec3, up: Vec3, fov: real, zoom: real)

  /**
   * What the projections read: the camera position, the forward, right and up
   * vectors, the tangent of half the field of view (`@h_fov`) and the zoom.
   */
  datatype View = View(position: Vec3, forward: Vec3, right: Vec3, up: Vec3, hFov: real, zoom: real)

  /**
   * The target is away from the position and the up hint is not parallel to
   * the line of sight. Without it `calc_camera` divides by a zero length.
   */
  predicate NonDegenerate(cam: Camera) {
    var sight := Sub(cam.target, cam.position);
    Dot(sight, sight) > 0.0 && Dot(Cross(sight, cam.up), Cross(sight, cam.up)) > 0.0
  }

  /** `v` scaled by the reciprocal of its length, as `calc_camera` does with `*=`. */
  function Normalized(env: Env, v: Vec3): Vec3
    requires env.Valid() && Dot(v, v) > 0.0
  {
    Scale(v, 1.0 / env.Sqrt(Dot(v, v)))
  }

  /** The argument of `Math.tan` in `calc_camera`: half the field of view, in radians. */
  function FovAngle(cam: Camera, env: Env): real {
    cam.fov * env.deg2rad * 0.5
  }

  /** The basis `calc_camera` computes: forward, then right = forward × up hint, then up = right × forward. */
  function CameraBasis(cam: Camera, env: Env): View
    requires env.Valid() && NonDegenerate(cam)
  {
    var forward := Normalized(env, Sub(cam.target, cam.position));
    RightNonZero(cam, env);
    var right := Normalized(env, Cross(forward, cam.up));
    UpNonZero(cam, env);
    var up := Normalized(env, Cross(right, forward));
    View(cam.position, forward, right, up, env.Tan(FovAngle(cam, env)), cam.zoom)
  }

  /** Normalising keeps the direction: the result is a positive multiple of `v`, hence non-zero. */
  lemma NormalizedPositive(env: Env, v: Vec3)
    requires env.Valid() && Dot(v, v) > 0.0
    ensures 1.0 / env.Sqrt(Dot(v, v)) > 0.0
    ensures Dot(Normalized(env, v), Normalized(env, v)) > 0.0
    ensures Dot(Normalized(env, v), v) > 0.0
  {
    var k := 1.0 / env.Sqrt(Dot(v, v));
    assert env.Sqrt(Dot(v, v)) > 0.0;
    NormSquaredScale(v, k);
    DotScaleLeft(v, k, v);
  }

  /** The unnormalised right vector is non-zero, so its length is not zero. */
  lemma RightNonZero(cam: Camera, env: Env)
    requires env.Valid() && NonDegenerate(cam)
    ensures var forward := Normalized(env, Sub(cam.target, cam.position));
            Dot(Cross(forward, cam.up), Cross(forward, cam.up)) > 0.0
  {
    var sight := Sub(cam.target, cam.position);
    var k := 1.0 / env.Sqrt(Dot(sight, sight));
    NormalizedPositive(env, sight);
    CrossScaleLeft(sight, k, cam.up);
    NormSquaredScale(Cross(sight, cam.up), k);
  }

  /**
   * Once forward and right are non-zero and right is built from forward, the
   * re-orthogonalised up vector is non-zero: by Lagrange's identity its squared
   * length is |right|²·|forward|².
   */
  lemma UpNonZero(cam: Camera, env: Env)
    requires env.Valid() && NonDegenerate(cam)
    ensures var forward := Normalized(env, Sub(cam.target, cam.position));
            var c := Cross(forward, cam.up);
            Dot(c, c) > 0.0 &&
            Dot(Cross(Normalized(env, c), forward), Cross(Normalized(env, c), forward)) > 0.0
  {
    var forward := Normalized(env, Sub(cam.target, cam.position));
    NormalizedPositive(env, Sub(cam.target, cam.position));
    RightNonZero(cam, env);
    var c := Cross(forward, cam.up);
    var right := Normalized(env, c);
    NormalizedPositive(env, c);
    CrossOrthogonal(forward, cam.up);
    DotScaleLeft(c, 1.0 / env.Sqrt(Dot(c, c)), forward);
    Lagrange(right, forward);
    assert Dot(right, forward) == 0.0;
    PositiveProduct(Dot(right, right), Dot(forward, forward));
  }

  lemma PositiveProduct(a: real, b: real)
    requires a > 0.0 && b > 0.0
    ensures a * b > 0.0
  {
  }

  /** The intermediate vectors of `CameraBasis`, for the lemmas about it. */
  lemma BasisSteps(cam: Camera, env: Env)
    requires env.Valid() && NonDegenerate(cam)
    ensures var v := CameraBasis(cam, env);
            var sight := Sub(cam.target, cam.position);
            var r0 := Cross(v.forward, cam.up);
            var u0 := Cross(v.right, v.forward);
            Dot(sight, sight) > 0.0 && v.forward == Normalized(env, sight) &&
            Dot(r0, r0) > 0.0 && v.right == Normalized(env, r0) &&
            Dot(u0, u0) > 0.0 && v.up == Normalized(env, u0) &&
            v.position == cam.position && v.zoom == cam.zoom &&
            v.hFov == env.Tan(FovAngle(cam, env))
  {
    RightNonZero(cam, env);
    UpNonZero(cam, env);
  }

  /** The basis is what the three steps of `calc_camera` produce in turn. */
  lemma BasisFromSteps(cam: Camera, env: Env, forward: Vec3, right: Vec3, up: Vec3)
    requires env.Valid() && NonDegenerate(cam)
    requires Dot(Sub(cam.target, cam.position), Sub(cam.target, cam.position)) > 0.0
    requires forward == Normalized(env, Sub(cam.target, cam.position))
    requires Dot(Cross(forward, cam.up), Cross(forward, cam.up)) > 0.0
    requires right == Normalized(env, Cross(forward, cam.up))
    requires Dot(Cross(right, forward), Cross(right, forward)) > 0.0
    requires up == Normalized(env, Cross(right, forward))
    ensures CameraBasis(cam, env) == View(cam.position, forward, right, up, env.Tan(FovAngle(cam, env)), cam.zoom)
  {
  }

  /** The three basis vectors are pairwise orthogonal (renderer.rb:39-63). */
  lemma BasisOrthogonal(cam: Camera, env: Env)
    requires env.Valid() && NonDegenerate(cam)
    ensures var v := CameraBasis(cam, env);
            Dot(v.right, v.forward) == 0.0 &&
            Dot(v.up, v.forward) == 0.0 &&
            Dot(v.up, v.right) == 0.0
  {
    var v := CameraBasis(cam, env);
    BasisSteps(cam, env);
    var r0 := Cross(v.forward, cam.up);
    CrossOrthogonal(v.forward, cam.up);
    DotScaleLeft(r0, 1.0 / env.Sqrt(Dot(r0, r0)), v.forward);
    var u0 := Cross(v.right, v.forward);
    CrossOrthogonal(v.right, v.forward);
    DotScaleLeft(u0, 1.0 / env.Sqrt(Dot(u0, u0)), v.forward);
    DotScaleLeft(u0, 1.0 / env.Sqrt(Dot(u0, u0)), v.right);
  }

  /**
   * The basis is non-degenerate and right-handed: forward points toward the
   * target, every vector is non-zero, and up lies on the positive side of
   * right × forward.
   */
  lemma BasisOriented(cam: Camera, env: Env)
    requires env.Valid() && NonDegenerate(cam)
    ensures var v := CameraBasis(cam, env);
            Dot(v.forward, Sub(cam.target, cam.position)) > 0.0 &&
            Dot(v.forward, v.forward) > 0.0 &&
            Dot(v.right, v.right) > 0.0 &&
            Dot(v.up, v.up) > 0.0 &&
            Dot(Cross(v.right, v.forward), v.up) > 0.0
  {
    var v := CameraBasis(cam, env);
    BasisSteps(cam, env);
    NormalizedPositive(env, Sub(cam.target, cam.position));
    NormalizedPositive(env, Cross(v.forward, cam.up));
    var u0 := Cross(v.right, v.forward);
    NormalizedPositive(env, u0);
    DotSymmetric(v.up, u0);
  }

  /**
   * The right vector is orthogonal to the up hint, and the recomputed up vector
   * keeps to the hint's side: up · hint > 0.
   */
  lemma BasisFollowsUpHint(cam: Camera, env: Env)
    requires env.Valid() && NonDegenerate(cam)
    ensures var v := CameraBasis(cam, env);
            Dot(v.right, cam.up) == 0.0 && Dot(v.up, cam.up) > 0.0
  {
    var v := CameraBasis(cam, env);
    BasisSteps(cam, env);
    var r0 := Cross(v.forward, cam.up);
    var kr := 1.0 / env.Sqrt(Dot(r0, r0));
    CrossOrthogonal(v.forward, cam.up);
    DotScaleLeft(r0, kr, cam.up);
    var u0 := Cross(v.right, v.forward);
    var ku := 1.0 / env.Sqrt(Dot(u0, u0));
    NormalizedPositive(env, r0);
    NormalizedPositive(env, u0);
    TripleProduct(v.right, v.forward, cam.up);
    DotScaleLeft(r0, kr, r0);
    DotScaleLeft(u0, ku, cam.up);
    assert Dot(u0, cam.up) == kr * Dot(r0, r0);
    assert kr * Dot(r0, r0) > 0.0;
  }
}
