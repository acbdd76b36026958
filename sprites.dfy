/**
 * What the three sprite passes draw for each actor (renderer.rb:66-202): the
 * screen pass passes the actor through, the orthographic pass projects onto
 * the camera's right and up axes and scales by the zoom, the perspective pass
 * divides by depth along the forward axis times `@h_fov`.
 */
module SpritePasses {
  import opened Vectors
  import opened CameraModel
  import opened Numerics
  import opened DrawLog
  import opened Actors

  predicate AllSprites(actors: seq<Actor>) {
    forall i :: 0 <= i < |actors| ==> actors[i].SpriteActor?
  }

  /** `camera_vector`: the actor's position relative to the camera. */
  function CameraVector(a: Actor, v: View): Vec3
    requires a.SpriteActor?
  {
    Sub(Position(a), v.position)
  }

  /** `draw_sprite_layer_screen`, one actor: x, y, w, h and path unchanged. */
  function ScreenSprite(a: Actor): DrawCall
    requires a.SpriteActor?
  {
    CenteredSprite(a.x, a.y, a.w, a.h, a.path)
  }

  /** `draw_sprite_layer_orthographic`, one actor. */
  function OrthographicSprite(a: Actor, v: View): DrawCall
    requires a.SpriteActor?
  {
    var c := CameraVector(a, v);
    CenteredSprite(-Dot(c, v.right) * v.zoom, Dot(c, v.up) * v.zoom, a.w * v.zoom, a.h * v.zoom, a.path)
  }

  /** `dot_product` of the perspective pass: the distance along the forward axis. */
  function Depth(a: Actor, v: View): real
    requires a.SpriteActor?
  {
    Dot(CameraVector(a, v), v.forward)
  }

  /**
   * The perspective pass has no depth guard; over the reals its divisor
   * exists only when the depth and `@h_fov` are non-zero.
   */
  predicate Projectable(a: Actor, v: View) {
    a.SpriteActor? && Depth(a, v) != 0.0 && v.hFov != 0.0
  }

  /** `perspective_divisor = 1.0 / dot_product / @h_fov`. */
  function PerspectiveDivisor(a: Actor, v: View): real
    requires Projectable(a, v)
  {
    1.0 / Depth(a, v) / v.hFov
  }

  /** `draw_sprite_layer_perspective`, one actor. */
  function PerspectiveSprite(a: Actor, v: View): DrawCall
    requires Projectable(a, v)
  {
    var c := CameraVector(a, v);
    var divisor := PerspectiveDivisor(a, v);
    CenteredSprite(-Dot(c, v.right) * divisor, Dot(c, v.up) * divisor, a.w * divisor, a.h * divisor, a.path)
  }

  /** The records a whole screen pass appends: one per actor, in actor order. */
  function ScreenPass(actors: seq<Actor>): seq<DrawCall>
    requires AllSprites(actors)
  {
    seq(|actors|, i requires 0 <= i < |actors| => ScreenSprite(actors[i]))
  }

  function OrthographicPass(actors: seq<Actor>, v: View): seq<DrawCall>
    requires AllSprites(actors)
  {
    seq(|actors|, i requires 0 <= i < |actors| => OrthographicSprite(actors[i], v))
  }

  predicate AllProjectable(actors: seq<Actor>, v: View) {
    forall i :: 0 <= i < |actors| ==> Projectable(actors[i], v)
  }

  function PerspectivePass(actors: seq<Actor>, v: View): seq<DrawCall>
    requires AllProjectable(actors, v)
  {
    seq(|actors|, i requires 0 <= i < |actors| => PerspectiveSprite(actors[i], v))
  }

  /**
   * The screen pass draws exactly one sprite per actor, in order, with the
   * actor's own x, y, w, h and path, every optional argument nil and the
   * anchor at (0.5, 0.5).
   */
  lemma ScreenPassThrough(actors: seq<Actor>)
    requires AllSprites(actors)
    ensures |ScreenPass(actors)| == |actors|
    ensures forall i :: 0 <= i < |actors| ==>
      var d := ScreenPass(actors)[i];
      IsCentered(d) && d.x == actors[i].x && d.y == actors[i].y &&
      d.w == actors[i].w && d.h == actors[i].h && d.path == actors[i].path
  {
  }

  /** Every orthographic and perspective record is centred with nil options too. */
  lemma ProjectedPassesCentered(actors: seq<Actor>, v: View)
    requires AllProjectable(actors, v)
    ensures AllSprites(actors)
    ensures |OrthographicPass(actors, v)| == |actors| && |PerspectivePass(actors, v)| == |actors|
    ensures forall i :: 0 <= i < |actors| ==>
      IsCentered(OrthographicPass(actors, v)[i]) && IsCentered(PerspectivePass(actors, v)[i]) &&
      OrthographicPass(actors, v)[i].path == actors[i].path &&
      PerspectivePass(actors, v)[i].path == actors[i].path
  {
  }

  /** The actor moved by `d`. */
  function Moved(a: Actor, d: Vec3): (b: Actor)
    requires a.SpriteActor?
    ensures b.SpriteActor? && Position(b) == Add(Position(a), d)
    ensures b.w == a.w && b.h == a.h && b.path == a.path
  {
    a.(x := a.x + d.x, y := a.y + d.y, z := a.z + d.z)
  }

  /**
   * The orthographic projection is linear in the actor's position: moving the
   * actor by `d` moves the sprite by −(d·right)·zoom and (d·up)·zoom and leaves
   * its size alone.
   */
  lemma OrthographicShift(a: Actor, d: Vec3, v: View)
    requires a.SpriteActor?
    ensures var p, q := OrthographicSprite(a, v), OrthographicSprite(Moved(a, d), v);
            q.x == p.x - Dot(d, v.right) * v.zoom &&
            q.y == p.y + Dot(d, v.up) * v.zoom &&
            q.w == p.w && q.h == p.h
  {
    var c := CameraVector(a, v);
    assert CameraVector(Moved(a, d), v) == Add(c, d);
    DotAdd(c, d, v.right);
    DotAdd(c, d, v.up);
  }

  /** Moving an actor along a direction orthogonal to right and up (depth) does not move its sprite. */
  lemma OrthographicIgnoresDepth(a: Actor, d: Vec3, v: View)
    requires a.SpriteActor?
    requires Dot(d, v.right) == 0.0 && Dot(d, v.up) == 0.0
    ensures OrthographicSprite(Moved(a, d), v) == OrthographicSprite(a, v)
  {
    OrthographicShift(a, d, v);
  }

  /**
   * Under the basis `calc_camera` computes, an actor on the forward axis at a
   * non-zero distance projects to the screen origin.
   */
  lemma PerspectiveForwardAxis(cam: Camera, env: Env, a: Actor, t: real)
    requires env.Valid() && NonDegenerate(cam)
    requires a.SpriteActor? && t != 0.0
    requires Position(a) == Add(cam.position, Scale(CameraBasis(cam, env).forward, t))
    requires CameraBasis(cam, env).hFov != 0.0
    ensures Projectable(a, CameraBasis(cam, env))
    ensures PerspectiveSprite(a, CameraBasis(cam, env)).x == 0.0
    ensures PerspectiveSprite(a, CameraBasis(cam, env)).y == 0.0
  {
    var v := CameraBasis(cam, env);
    var f := v.forward;
    assert CameraVector(a, v) == Scale(f, t);
    BasisOrthogonal(cam, env);
    BasisOriented(cam, env);
    DotScaleLeft(f, t, f);
    DotScaleLeft(f, t, v.right);
    DotScaleLeft(f, t, v.up);
    DotSymmetric(f, v.right);
    DotSymmetric(f, v.up);
    NonZeroProduct(t, Dot(f, f));
  }

  /**
   * Points on one ray from the camera project to the same screen point: moving
   * the actor so that its camera vector is scaled by k keeps x and y and divides w and h by k.
   */
  lemma PerspectiveRay(a: Actor, b: Actor, v: View, k: real)
    requires Projectable(a, v) && b.SpriteActor? && k != 0.0
    requires CameraVector(b, v) == Scale(CameraVector(a, v), k)
    requires b.w == a.w && b.h == a.h
    ensures Projectable(b, v)
    ensures PerspectiveDivisor(b, v) == PerspectiveDivisor(a, v) / k
    ensures PerspectiveSprite(b, v).x == PerspectiveSprite(a, v).x
    ensures PerspectiveSprite(b, v).y == PerspectiveSprite(a, v).y
    ensures PerspectiveSprite(b, v).w == PerspectiveSprite(a, v).w / k
    ensures PerspectiveSprite(b, v).h == PerspectiveSprite(a, v).h / k
  {
    RayDivisor(a, b, v, k);
    RayCentre(a, b, v, k);
    RaySize(a, b, v, k);
  }

  lemma RayDivisor(a: Actor, b: Actor, v: View, k: real)
    requires Projectable(a, v) && b.SpriteActor? && k != 0.0
    requires CameraVector(b, v) == Scale(CameraVector(a, v), k)
    ensures Projectable(b, v)
    ensures PerspectiveDivisor(b, v) == PerspectiveDivisor(a, v) / k
  {
    RayDots(a, b, v, k);
    var depth := Depth(a, v);
    NonZeroProduct(k, depth);
    ReciprocalOfScaled(k, depth, v.hFov);
  }

  lemma RayCentre(a: Actor, b: Actor, v: View, k: real)
    requires Projectable(a, v) && b.SpriteActor? && k != 0.0
    requires CameraVector(b, v) == Scale(CameraVector(a, v), k)
    ensures Projectable(b, v)
    ensures PerspectiveSprite(b, v).x == PerspectiveSprite(a, v).x
    ensures PerspectiveSprite(b, v).y == PerspectiveSprite(a, v).y
  {
    RayDivisor(a, b, v, k);
    RayDots(a, b, v, k);
    RayCentreX(a, b, v, k);
    RayCentreY(a, b, v, k);
  }

  lemma RayCentreX(a: Actor, b: Actor, v: View, k: real)
    requires Projectable(a, v) && Projectable(b, v) && k != 0.0
    requires Dot(CameraVector(b, v), v.right) == k * Dot(CameraVector(a, v), v.right)
    requires PerspectiveDivisor(b, v) == PerspectiveDivisor(a, v) / k
    ensures PerspectiveSprite(b, v).x == PerspectiveSprite(a, v).x
  {
    RayCoordinate(PerspectiveSprite(b, v).x, Dot(CameraVector(b, v), v.right), PerspectiveDivisor(b, v), -1.0,
                  k, Dot(CameraVector(a, v), v.right), PerspectiveDivisor(a, v));
  }

  lemma RayCentreY(a: Actor, b: Actor, v: View, k: real)
    requires Projectable(a, v) && Projectable(b, v) && k != 0.0
    requires Dot(CameraVector(b, v), v.up) == k * Dot(CameraVector(a, v), v.up)
    requires PerspectiveDivisor(b, v) == PerspectiveDivisor(a, v) / k
    ensures PerspectiveSprite(b, v).y == PerspectiveSprite(a, v).y
  {
    RayCoordinate(PerspectiveSprite(b, v).y, Dot(CameraVector(b, v), v.up), PerspectiveDivisor(b, v), 1.0,
                  k, Dot(CameraVector(a, v), v.up), PerspectiveDivisor(a, v));
  }

  /** One screen coordinate of `RayCentre`: `sign·(k·c)·(q/k)` is `sign·c·q`. */
  lemma RayCoordinate(p: real, cb: real, db: real, sign: real, k: real, c: real, q: real)
    requires k != 0.0 && cb == k * c && db == q / k
    requires sign == 1.0 || sign == -1.0
    requires p == (if sign == 1.0 then cb * db else -cb * db)
    ensures p == (if sign == 1.0 then c * q else -c * q)
  {
    ScaledTimesShrunk(k, c, q);
  }

  lemma RaySize(a: Actor, b: Actor, v: View, k: real)
    requires Projectable(a, v) && b.SpriteActor? && k != 0.0
    requires CameraVector(b, v) == Scale(CameraVector(a, v), k)
    requires b.w == a.w && b.h == a.h
    ensures Projectable(b, v)
    ensures PerspectiveSprite(b, v).w == PerspectiveSprite(a, v).w / k
    ensures PerspectiveSprite(b, v).h == PerspectiveSprite(a, v).h / k
  {
    RayDivisor(a, b, v, k);
    var da := PerspectiveDivisor(a, v);
    TimesShrunk(a.w, da, k);
    TimesShrunk(a.h, da, k);
  }

  /** Scaling the camera vector by `k` scales its three projections by `k`. */
  lemma RayDots(a: Actor, b: Actor, v: View, k: real)
    requires a.SpriteActor? && b.SpriteActor?
    requires CameraVector(b, v) == Scale(CameraVector(a, v), k)
    ensures Depth(b, v) == k * Depth(a, v)
    ensures Dot(CameraVector(b, v), v.right) == k * Dot(CameraVector(a, v), v.right)
    ensures Dot(CameraVector(b, v), v.up) == k * Dot(CameraVector(a, v), v.up)
  {
    var c := CameraVector(a, v);
    DotScaleLeft(c, k, v.forward);
    DotScaleLeft(c, k, v.right);
    DotScaleLeft(c, k, v.up);
  }

  lemma ReciprocalOfScaled(k: real, d: real, h: real)
    requires k != 0.0 && d != 0.0 && h != 0.0
    ensures k * d != 0.0 && 1.0 / (k * d) / h == (1.0 / d / h) / k
  {
    NonZeroProduct(k, d);
  }

  lemma ScaledTimesShrunk(k: real, c: real, q: real)
    requires k != 0.0
    ensures (k * c) * (q / k) == c * q && -(k * c) * (q / k) == -c * q
  {
  }

  lemma TimesShrunk(w: real, q: real, k: real)
    requires k != 0.0
    ensures w * (q / k) == (w * q) / k
  {
  }

  lemma NonZeroProduct(a: real, b: real)
    requires a != 0.0 && b != 0.0
    ensures a * b != 0.0
  {
  }

}
