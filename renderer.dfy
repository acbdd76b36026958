/**
 * The `Renderer` module object of renderer.rb and the instance variables its
 * singleton methods update: the layer registry (`@layers`, `@layer_contexts`,
 * `@sorted_layers`), the camera basis that `calc_camera` recomputes, and the
 * draw routines that turn a layer's actors into host draw calls.
 */
module Renderer {
  import opened Wrappers
  import opened Vectors
  import opened Numerics
  import opened CameraModel
  import opened DrawLog
  import opened Actors
  import opened Layers
  import opened SpritePasses
  import opened MeshPass

  /** How a mesh pass ends: normally, or on the `FloatDomainError` that `NaN.to_i` raises. */
  datatype Status = Completed | FloatDomainError

  /** The singleton `Renderer` with its instance variables. */
  class RendererState {
    /** `Math`, `DEG2RAD`, `SCREEN_CX` and `SCREEN_CY`, which renderer.rb reads but does not define. */
    const env: Env

    /** `@camera`, assigned by the application through `attr_accessor :camera`. */
    var camera: Camera

    // The basis `calc_camera` derives from `@camera`.
    var zoom: real
    var upX: real, upY: real, upZ: real
    var cameraX: real, cameraY: real, cameraZ: real
    var hFov: real
    var forwardX: real, forwardY: real, forwardZ: real
    var rightX: real, rightY: real, rightZ: real
    /**
     * Whether `calc_camera` has run.  Before it, the basis instance variables
     * are `nil`, and any pass that reads one raises in Ruby; such calls are
     * excluded by preconditions.
     */
    ghost var basisReady: bool

    /** `@layers`: a hash whose default block stores a fresh empty array under a missing name. */
    var layers: map<Name, ActorList>
    /** `@layer_contexts`, with `contextOrder` recording its insertion order. */
    var layerContexts: map<Name, LayerContext>
    var contextOrder: seq<Name>
    /** `@sorted_layers`: the `[name, context]` pairs of `@layer_contexts` by ascending z. */
    var sortedLayers: seq<Entry>
    /** `@draw_wireframe`. */
    var drawWireframe: bool

    /** The basis fields as the projections read them. */
    function CurrentView(): View
      reads this`cameraX, this`cameraY, this`cameraZ, this`forwardX, this`forwardY, this`forwardZ,
            this`rightX, this`rightY, this`rightZ, this`upX, this`upY, this`upZ, this`hFov, this`zoom
    {
      View(Vec3(cameraX, cameraY, cameraZ), Vec3(forwardX, forwardY, forwardZ),
           Vec3(rightX, rightY, rightZ), Vec3(upX, upY, upZ), hFov, zoom)
    }

    /**
     * `@layer_contexts` is consistent, `@sorted_layers` is its sorted view, and
     * every registered name has an actor list (`new_layer` always ends by
     * reading `@layers[name]`).
     */
    ghost predicate Valid()
      reads this`contextOrder, this`layerContexts, this`sortedLayers, this`layers
    {
      env.Valid() && RegistryValid() && (forall n <- layerContexts :: n in layers)
    }

    /** `@layer_contexts` is consistent and `@sorted_layers` is its sorted view. */
    ghost predicate RegistryValid()
      reads this`contextOrder, this`layerContexts, this`sortedLayers
    {
      WellFormed(contextOrder, layerContexts) && IsSortedView(sortedLayers, contextOrder, layerContexts)
    }

    /** The module body: empty hashes and arrays, wireframe on; the camera comes from the application. */
    constructor (env: Env, camera: Camera)
      requires env.Valid()
      ensures Valid()
      ensures this.env == env && this.camera == camera
      ensures layers == map[] && layerContexts == map[] && contextOrder == [] && sortedLayers == []
      ensures drawWireframe
      ensures !basisReady
    {
      this.env := env;
      this.camera := camera;
      zoom, hFov := 0.0, 0.0;
      upX, upY, upZ := 0.0, 0.0, 0.0;
      cameraX, cameraY, cameraZ := 0.0, 0.0, 0.0;
      forwardX, forwardY, forwardZ := 0.0, 0.0, 0.0;
      rightX, rightY, rightZ := 0.0, 0.0, 0.0;
      layers := map[];
      layerContexts := map[];
      contextOrder := [];
      sortedLayers := [];
      drawWireframe := true;
      basisReady := false;
    }

    /** `@layers[name]`: the stored list, or a fresh empty one stored by the default block. */
    method LayerFor(name: Name) returns (list: ActorList)
      modifies this`layers
      ensures name in layers && list == layers[name]
      ensures name in old(layers) ==> layers == old(layers)
      ensures name !in old(layers) ==> fresh(list) && list.actors == [] && layers == old(layers)[name := list]
    {
      if name in layers {
        list := layers[name];
      } else {
        list := new ActorList();
        layers := layers[name := list];
      }
    }

    /**
     * `new_layer`: stores (overwriting) the context for `name`, re-sorts the
     * contexts by z and returns the live actor list for `name`.
     */
    method NewLayer(name: Name, z: real, projection: Projection, layerType: LayerType := Sprite,
                    parallaxTable: Option<Table> := None, depthTable: Option<Table> := None)
        returns (list: ActorList)
      requires Valid()
      modifies this`layerContexts, this`contextOrder, this`sortedLayers, this`layers
      ensures Valid()
      ensures layerContexts == old(layerContexts)[name := LayerContext(z, name, layerType, projection, depthTable, parallaxTable)]
      ensures contextOrder == if name in old(layerContexts) then old(contextOrder) else old(contextOrder) + [name]
      ensures name in old(layers) ==> list == old(layers)[name] && layers == old(layers)
      ensures name !in old(layers) ==> fresh(list) && list.actors == [] && layers == old(layers)[name := list]
      ensures IsSortedView(sortedLayers, contextOrder, layerContexts)
    {
      ghost var layers0, contexts0 := layers, layerContexts;
      StoreContext(LayerContext(z, name, layerType, projection, depthTable, parallaxTable));
      list := LayerFor(name);
      StillCovered(contexts0, layers0, layerContexts, layers, name, list);
    }

    /** The first two lines of `new_layer`: store the context, then re-sort. */
    method StoreContext(context: LayerContext)
      requires WellFormed(contextOrder, layerContexts)
      modifies this`layerContexts, this`contextOrder, this`sortedLayers
      ensures RegistryValid()
      ensures layerContexts == old(layerContexts)[context.name := context]
      ensures contextOrder == Registered(old(contextOrder), old(layerContexts), context.name)
      ensures IsSortedView(sortedLayers, contextOrder, layerContexts)
    {
      var order := Registered(contextOrder, layerContexts, context.name);
      var contexts := layerContexts[context.name := context];
      RegisterKeepsWellFormed(contextOrder, layerContexts, context);
      SortByZIsSortedView(order, contexts);
      contextOrder, layerContexts, sortedLayers := order, contexts, SortByZ(Entries(order, contexts));
    }

    /** `calc_camera`: copies the camera fields, then builds forward, right and up in turn. */
    method CalcCamera()
      requires env.Valid() && NonDegenerate(camera)
      modifies this`zoom, this`hFov, this`cameraX, this`cameraY, this`cameraZ,
               this`forwardX, this`forwardY, this`forwardZ, this`rightX, this`rightY, this`rightZ,
               this`upX, this`upY, this`upZ, this`basisReady
      ensures CurrentView() == CameraBasis(camera, env) && basisReady
    {
      zoom := camera.zoom;
      upX := camera.up.x;
      upY := camera.up.y;
      upZ := camera.up.z;
      cameraX := camera.position.x;
      cameraY := camera.position.y;
      cameraZ := camera.position.z;
      var targetX, targetY, targetZ := camera.target.x, camera.target.y, camera.target.z;
      hFov := env.Tan(FovAngle(camera, env));
      CalcBasis(targetX, targetY, targetZ);
      assert Vec3(cameraX, cameraY, cameraZ) == camera.position;
      basisReady := true;
    }

    /** The three steps of `calc_camera` that build forward, right and up. */
    method CalcBasis(targetX: real, targetY: real, targetZ: real)
      requires env.Valid() && NonDegenerate(camera)
      requires Vec3(targetX, targetY, targetZ) == camera.target
      requires Vec3(cameraX, cameraY, cameraZ) == camera.position && Vec3(upX, upY, upZ) == camera.up
      modifies this`forwardX, this`forwardY, this`forwardZ, this`rightX, this`rightY, this`rightZ,
               this`upX, this`upY, this`upZ
      ensures var v := CameraBasis(camera, env);
              Vec3(forwardX, forwardY, forwardZ) == v.forward && Vec3(rightX, rightY, rightZ) == v.right &&
              Vec3(upX, upY, upZ) == v.up
    {
      assert Vec3(targetX - cameraX, targetY - cameraY, targetZ - cameraZ) == Sub(camera.target, camera.position);
      CalcForward(targetX, targetY, targetZ);
      ghost var forward := Vec3(forwardX, forwardY, forwardZ);
      RightNonZero(camera, env);
      CalcRight();
      ghost var right := Vec3(rightX, rightY, rightZ);
      UpNonZero(camera, env);
      CalcUp();
      BasisFromSteps(camera, env, forward, right, Vec3(upX, upY, upZ));
    }

    /** The forward step of `calc_camera`: target − position, scaled by its reciprocal length. */
    method CalcForward(targetX: real, targetY: real, targetZ: real)
      requires env.Valid()
      requires var sight := Vec3(targetX - cameraX, targetY - cameraY, targetZ - cameraZ);
               Dot(sight, sight) > 0.0
      modifies this`forwardX, this`forwardY, this`forwardZ
      ensures Vec3(forwardX, forwardY, forwardZ) ==
              Normalized(env, Vec3(targetX - cameraX, targetY - cameraY, targetZ - cameraZ))
    {
      ghost var sight := Vec3(targetX - cameraX, targetY - cameraY, targetZ - cameraZ);
      assert env.Sqrt(Dot(sight, sight)) > 0.0;
      forwardX := targetX - cameraX;
      forwardY := targetY - cameraY;
      forwardZ := targetZ - cameraZ;
      assert Vec3(forwardX, forwardY, forwardZ) == sight;
      assert forwardX * forwardX + forwardY * forwardY + forwardZ * forwardZ == Dot(sight, sight);
      var forwardLength := 1.0 / env.Sqrt(forwardX * forwardX + forwardY * forwardY + forwardZ * forwardZ);
      assert forwardLength == 1.0 / env.Sqrt(Dot(sight, sight));
      forwardX := forwardX * forwardLength;
      forwardY := forwardY * forwardLength;
      forwardZ := forwardZ * forwardLength;
      assert Vec3(forwardX, forwardY, forwardZ) == Scale(sight, forwardLength);
    }

    /** The right step of `calc_camera`: forward × up hint, scaled by its reciprocal length. */
    method CalcRight()
      requires env.Valid()
      requires var r := Cross(Vec3(forwardX, forwardY, forwardZ), Vec3(upX, upY, upZ));
               Dot(r, r) > 0.0
      modifies this`rightX, this`rightY, this`rightZ
      ensures Vec3(rightX, rightY, rightZ) == Normalized(env, Cross(Vec3(forwardX, forwardY, forwardZ), Vec3(upX, upY, upZ)))
    {
      ghost var r := Cross(Vec3(forwardX, forwardY, forwardZ), Vec3(upX, upY, upZ));
      rightX := forwardY * upZ - forwardZ * upY;
      rightY := forwardZ * upX - forwardX * upZ;
      rightZ := forwardX * upY - forwardY * upX;
      assert Vec3(rightX, rightY, rightZ) == r;
      assert rightX * rightX + rightY * rightY + rightZ * rightZ == Dot(r, r);
      var rightLength := 1.0 / env.Sqrt(rightX * rightX + rightY * rightY + rightZ * rightZ);
      assert rightLength == 1.0 / env.Sqrt(Dot(r, r));
      rightX := rightX * rightLength;
      rightY := rightY * rightLength;
      rightZ := rightZ * rightLength;
      assert Vec3(rightX, rightY, rightZ) == Scale(r, rightLength);
    }

    /** The up step of `calc_camera`: right × forward, scaled by its reciprocal length. */
    method CalcUp()
      requires env.Valid()
      requires var u := Cross(Vec3(rightX, rightY, rightZ), Vec3(forwardX, forwardY, forwardZ));
               Dot(u, u) > 0.0
      modifies this`upX, this`upY, this`upZ
      ensures Vec3(upX, upY, upZ) ==
              Normalized(env, Cross(Vec3(rightX, rightY, rightZ), Vec3(forwardX, forwardY, forwardZ)))
    {
      ghost var u := Cross(Vec3(rightX, rightY, rightZ), Vec3(forwardX, forwardY, forwardZ));
      upX := rightY * forwardZ - rightZ * forwardY;
      upY := rightZ * forwardX - rightX * forwardZ;
      upZ := rightX * forwardY - rightY * forwardX;
      assert Vec3(upX, upY, upZ) == u;
      assert upX * upX + upY * upY + upZ * upZ == Dot(u, u);
      var upLength := 1.0 / env.Sqrt(upX * upX + upY * upY + upZ * upZ);
      assert upLength == 1.0 / env.Sqrt(Dot(u, u));
      upX := upX * upLength;
      upY := upY * upLength;
      upZ := upZ * upLength;
      assert Vec3(upX, upY, upZ) == Scale(u, upLength);
    }

    /** `tick`, without the hand-over of `self` to the host's output queue. */
    method Tick()
      requires Valid() && NonDegenerate(camera)
      modifies this`zoom, this`hFov, this`cameraX, this`cameraY, this`cameraZ,
               this`forwardX, this`forwardY, this`forwardZ, this`rightX, this`rightY, this`rightZ,
               this`upX, this`upY, this`upZ, this`basisReady
      ensures Valid()
      ensures CurrentView() == CameraBasis(camera, env) && basisReady
    {
      CalcCamera();
    }

    /** `draw_override`: the perspective mesh pass over `@layers[:foreground_mesh]`. */
    method DrawOverride(ffi: Ffi) returns (status: Status)
      requires Valid()
      requires "foreground_mesh" in layers ==> AllDrawable(layers["foreground_mesh"].actors, CurrentView())
      requires "foreground_mesh" in layers && ReadsBasis(layers["foreground_mesh"].actors) ==> basisReady
      modifies this`layers, ffi
      ensures Valid()
      ensures "foreground_mesh" in layers
      ensures "foreground_mesh" in old(layers) ==> layers == old(layers)
      ensures "foreground_mesh" !in old(layers) ==>
                fresh(layers["foreground_mesh"]) && layers == old(layers)["foreground_mesh" := layers["foreground_mesh"]]
      ensures layers["foreground_mesh"].actors ==
              if "foreground_mesh" in old(layers) then old(layers["foreground_mesh"].actors) else []
      ensures AllDrawable(layers["foreground_mesh"].actors, CurrentView())
      ensures var e := MeshLayer(layers["foreground_mesh"].actors, CurrentView(), env, drawWireframe);
              ffi.log == old(ffi.log) + e.draws && (status == FloatDomainError <==> e.raised)
    {
      var layer := LayerFor("foreground_mesh");
      status := DrawMeshLayerPerspective(layer, ffi);
    }

    /** `draw_sprite_layer_screen`: one centred sprite per actor at the actor's own coordinates. */
    method DrawSpriteLayerScreen(layer: ActorList, ffi: Ffi)
      requires AllSprites(layer.actors)
      modifies ffi
      ensures ffi.log == old(ffi.log) + ScreenPass(layer.actors)
    {
      var numActors := |layer.actors|;
      var i := 0;
      while i < numActors
        invariant 0 <= i <= numActors
        invariant ffi.log == old(ffi.log) + ScreenPass(layer.actors[..i])
      {
        var actor := layer.actors[i];
        ffi.DrawSprite5(actor.x, actor.y, actor.w, actor.h, actor.path,
                        None, None, None, None, None, None, None, None, None,
                        None, None, None, None, None, None, None, None, None, Some(0.5), Some(0.5));
        assert ScreenPass(layer.actors[..i + 1]) == ScreenPass(layer.actors[..i]) + [ScreenSprite(actor)];
        i := i + 1;
      }
      assert layer.actors[..numActors] == layer.actors;
    }

    /** `draw_sprite_layer_orthographic`: projection onto right and up, scaled by the zoom. */
    method DrawSpriteLayerOrthographic(layer: ActorList, ffi: Ffi)
      requires AllSprites(layer.actors)
      requires layer.actors != [] ==> basisReady
      modifies ffi
      ensures ffi.log == old(ffi.log) + OrthographicPass(layer.actors, CurrentView())
    {
      var numActors := |layer.actors|;
      var i := 0;
      while i < numActors
        invariant 0 <= i <= numActors
        invariant ffi.log == old(ffi.log) + OrthographicPass(layer.actors[..i], CurrentView())
      {
        var actor := layer.actors[i];
        var x, y, z := actor.x, actor.y, actor.z;
        var cameraVectorX := x - cameraX;
        var cameraVectorY := y - cameraY;
        var cameraVectorZ := z - cameraZ;
        var projectedX := -(cameraVectorX * rightX + cameraVectorY * rightY + cameraVectorZ * rightZ) * zoom;
        var projectedY := (cameraVectorX * upX + cameraVectorY * upY + cameraVectorZ * upZ) * zoom;
        assert Vec3(cameraVectorX, cameraVectorY, cameraVectorZ) == CameraVector(actor, CurrentView());
        assert CenteredSprite(projectedX, projectedY, actor.w * zoom, actor.h * zoom, actor.path) == OrthographicSprite(actor, CurrentView());
        ffi.DrawSprite5(projectedX, projectedY, actor.w * zoom, actor.h * zoom, actor.path,
                        None, None, None, None, None, None, None, None, None,
                        None, None, None, None, None, None, None, None, None, Some(0.5), Some(0.5));
        assert OrthographicPass(layer.actors[..i + 1], CurrentView()) ==
               OrthographicPass(layer.actors[..i], CurrentView()) + [OrthographicSprite(actor, CurrentView())];
        i := i + 1;
      }
      assert layer.actors[..numActors] == layer.actors;
    }

    /** `draw_sprite_layer_perspective`: division by depth times `@h_fov`, with no depth guard. */
    method DrawSpriteLayerPerspective(layer: ActorList, ffi: Ffi)
      requires AllProjectable(layer.actors, CurrentView())
      requires layer.actors != [] ==> basisReady
      modifies ffi
      ensures ffi.log == old(ffi.log) + PerspectivePass(layer.actors, CurrentView())
    {
      var numActors := |layer.actors|;
      var i := 0;
      while i < numActors
        invariant 0 <= i <= numActors
        invariant ffi.log == old(ffi.log) + PerspectivePass(layer.actors[..i], CurrentView())
      {
        var actor := layer.actors[i];
        var x, y, z := actor.x, actor.y, actor.z;
        var cameraVectorX := x - cameraX;
        var cameraVectorY := y - cameraY;
        var cameraVectorZ := z - cameraZ;
        assert Vec3(cameraVectorX, cameraVectorY, cameraVectorZ) == CameraVector(actor, CurrentView());
        var dotProduct := cameraVectorX * forwardX + cameraVectorY * forwardY + cameraVectorZ * forwardZ;
        assert dotProduct == Depth(actor, CurrentView());
        var perspectiveDivisor := 1.0 / dotProduct / hFov;
        var projectedX := -(cameraVectorX * rightX + cameraVectorY * rightY + cameraVectorZ * rightZ) * perspectiveDivisor;
        var projectedY := (cameraVectorX * upX + cameraVectorY * upY + cameraVectorZ * upZ) * perspectiveDivisor;
        assert CenteredSprite(projectedX, projectedY, actor.w * perspectiveDivisor, actor.h * perspectiveDivisor, actor.path) ==
               PerspectiveSprite(actor, CurrentView());
        ffi.DrawSprite5(projectedX, projectedY, actor.w * perspectiveDivisor, actor.h * perspectiveDivisor, actor.path,
                        None, None, None, None, None, None, None, None, None,
                        None, None, None, None, None, None, None, None, None, Some(0.5), Some(0.5));
        assert PerspectivePass(layer.actors[..i + 1], CurrentView()) ==
               PerspectivePass(layer.actors[..i], CurrentView()) + [PerspectiveSprite(actor, CurrentView())];
        i := i + 1;
      }
      assert layer.actors[..numActors] == layer.actors;
    }

    /** `draw_mesh_layer_orthographic`: draws nothing. */
    method DrawMeshLayerOrthographic(layer: ActorList, ffi: Ffi)
      ensures ffi.log == old(ffi.log)
    {
    }

    /** `draw_mesh_layer_screen`: draws nothing. */
    method DrawMeshLayerScreen(layer: ActorList, ffi: Ffi)
      ensures ffi.log == old(ffi.log)
    {
    }

    /**
     * `draw_mesh_layer_perspective`: for each actor, transform its vertices,
     * then draw its triangles; a `FloatDomainError` ends the pass.
     */
    method DrawMeshLayerPerspective(layer: ActorList, ffi: Ffi) returns (status: Status)
      requires env.Valid() && AllDrawable(layer.actors, CurrentView())
      requires ReadsBasis(layer.actors) ==> basisReady
      modifies ffi
      ensures var e := MeshLayer(layer.actors, CurrentView(), env, drawWireframe);
              ffi.log == old(ffi.log) + e.draws && (status == FloatDomainError <==> e.raised)
    {
      ghost var ems := ActorEmissions(layer.actors, CurrentView(), env, drawWireframe);
      var lightDir := LightDirection();
      var numActors := |layer.actors|;
      var i := 0;
      while i < numActors
        invariant 0 <= i <= numActors
        invariant !Chain(ems[..i]).raised
        invariant ffi.log == old(ffi.log) + Chain(ems[..i]).draws
      {
        var actor := layer.actors[i];
        ghost var before := ffi.log;
        var actorStatus := DrawMeshActor(actor, lightDir, ffi);
        ChainExtend(ems, i, old(ffi.log), before, ffi.log);
        if actorStatus == FloatDomainError {
          ChainStopsAtRaise(ems, i + 1);
          return FloatDomainError;
        }
        i := i + 1;
      }
      assert ems[..numActors] == ems;
      return Completed;
    }

    /** `light_dir`: (0.75, 0, 0.5) divided in place by its length. */
    method LightDirection() returns (lightDir: seq<real>)
      requires env.Valid()
      ensures |lightDir| == 3 && Vec3(lightDir[0], lightDir[1], lightDir[2]) == LightDir(env)
    {
      lightDir := [0.75, 0.0, 0.5];
      var length := env.Sqrt(lightDir[0] * lightDir[0] + lightDir[1] * lightDir[1] + lightDir[2] * lightDir[2]);
      assert length > 0.0;
      lightDir := [lightDir[0] / length, lightDir[1] / length, lightDir[2] / length];
    }

    /** The body of the actor loop: transform the actor's vertices, then draw its triangles. */
    method DrawMeshActor(actor: Actor, lightDir: seq<real>, ffi: Ffi) returns (status: Status)
      requires env.Valid() && Drawable(actor, CurrentView())
      requires NumVertices(actor) > 0 ==> basisReady
      requires |lightDir| == 3 && Vec3(lightDir[0], lightDir[1], lightDir[2]) == LightDir(env)
      modifies ffi
      ensures var e := MeshActorEmission(actor, CurrentView(), env, drawWireframe);
              ffi.log == old(ffi.log) + e.draws && (status == FloatDomainError <==> e.raised)
    {
      var transformedVertices := TransformVertices(actor);
      status := DrawTriangles(actor, transformedVertices, lightDir, ffi);
    }

    /** The first inner loop: the transformed buffer, three values per vertex. */
    method TransformVertices(actor: Actor) returns (transformedVertices: array<real>)
      requires actor.MeshActor? && DivisorsDefined(actor, CurrentView())
      requires NumVertices(actor) > 0 ==> basisReady
      ensures fresh(transformedVertices)
      ensures IsTransformedBuffer(transformedVertices[..], actor, CurrentView(), env)
    {
      var vertices := actor.vertices;
      var numVertices := |vertices| / 5;
      transformedVertices := new real[numVertices * 3];
      var j := 0;
      while j < numVertices
        invariant 0 <= j <= numVertices
        invariant forall k :: 0 <= k < j ==>
          transformedVertices[k * 3] == Transformed(actor, CurrentView(), env, k).x &&
          transformedVertices[k * 3 + 1] == Transformed(actor, CurrentView(), env, k).y &&
          transformedVertices[k * 3 + 2] == Transformed(actor, CurrentView(), env, k).z
      {
        var screenX, screenY, invDepth := TransformVertex(actor, j);
        transformedVertices[j * 3] := screenX;
        transformedVertices[j * 3 + 1] := screenY;
        transformedVertices[j * 3 + 2] := invDepth;
        j := j + 1;
      }
    }

    /** The body of the first inner loop: vertex `j` seen from the camera, projected and scaled to the screen. */
    method TransformVertex(actor: Actor, j: int) returns (screenX: real, screenY: real, invDepth: real)
      requires actor.MeshActor? && DivisorsDefined(actor, CurrentView()) && 0 <= j < NumVertices(actor)
      requires basisReady
      ensures Vec3(screenX, screenY, invDepth) == Transformed(actor, CurrentView(), env, j)
    {
      var vertices := actor.vertices;
      VertexInBuffer(actor, j);
      var vx := vertices[j * 5];
      var vy := vertices[j * 5 + 1];
      var vz := vertices[j * 5 + 2];
      var cameraVectorX := vx - cameraX;
      var cameraVectorY := vy - cameraY;
      var cameraVectorZ := vz - cameraZ;
      assert Vec3(cameraVectorX, cameraVectorY, cameraVectorZ) == Sub(VertexPosition(actor, j), CurrentView().position);
      var dotProduct := cameraVectorX * forwardX + cameraVectorY * forwardY + cameraVectorZ * forwardZ;
      assert dotProduct == VertexDepth(actor, CurrentView(), j);
      var perspectiveDivisor := zoom / 1.0 / (dotProduct + FloatEpsilon);
      screenX := (cameraVectorX * rightX + cameraVectorY * rightY + cameraVectorZ * rightZ) * perspectiveDivisor * env.screenCx;
      screenY := (cameraVectorX * upX + cameraVectorY * upY + cameraVectorZ * upZ) * perspectiveDivisor * env.screenCy;
      invDepth := perspectiveDivisor;
    }

    /** The second inner loop: every triangle of one actor, in index-buffer order. */
    method DrawTriangles(actor: Actor, transformedVertices: array<real>, lightDir: seq<real>, ffi: Ffi)
        returns (status: Status)
      requires env.Valid() && Drawable(actor, CurrentView())
      requires IsTransformedBuffer(transformedVertices[..], actor, CurrentView(), env)
      requires |lightDir| == 3 && Vec3(lightDir[0], lightDir[1], lightDir[2]) == LightDir(env)
      modifies ffi
      ensures var e := MeshActorEmission(actor, CurrentView(), env, drawWireframe);
              ffi.log == old(ffi.log) + e.draws && (status == FloatDomainError <==> e.raised)
    {
      ghost var steps := Steps(actor, CurrentView(), env, drawWireframe);
      var numTriangles := |actor.indices| / 3;
      var j := 0;
      while j < numTriangles
        invariant 0 <= j <= numTriangles
        invariant !Run(steps[..j]).raised
        invariant ffi.log == old(ffi.log) + Run(steps[..j]).draws
      {
        var raised := DrawTriangle(actor, transformedVertices, lightDir, j, ffi);
        assert steps[j] == TriangleStep(actor, CurrentView(), env, drawWireframe, j);
        RunExtend(steps, j);
        AppendAssoc(old(ffi.log), Run(steps[..j]).draws, Drawn(steps[j]));
        if raised {
          RunStopsAtRaise(steps, j + 1);
          return FloatDomainError;
        }
        j := j + 1;
      }
      assert steps[..numTriangles] == steps;
      return Completed;
    }

    /**
     * One pass of the triangle loop: read the three corners from the
     * transformed buffer, then cull, shade and draw them.
     */
    method DrawTriangle(actor: Actor, transformedVertices: array<real>, lightDir: seq<real>, j: int, ffi: Ffi)
        returns (raised: bool)
      requires env.Valid() && Drawable(actor, CurrentView()) && 0 <= j < NumTriangles(actor)
      requires IsTransformedBuffer(transformedVertices[..], actor, CurrentView(), env)
      requires |lightDir| == 3 && Vec3(lightDir[0], lightDir[1], lightDir[2]) == LightDir(env)
      modifies ffi
      ensures raised <==> TriangleStep(actor, CurrentView(), env, drawWireframe, j).Raises?
      ensures ffi.log == old(ffi.log) + Drawn(TriangleStep(actor, CurrentView(), env, drawWireframe, j))
    {
      var indices := actor.indices;
      var idx1 := indices[j * 3];
      var idx2 := indices[j * 3 + 1];
      var idx3 := indices[j * 3 + 2];
      assert idx1 == CornerIndex(actor, j, 0) && idx2 == CornerIndex(actor, j, 1) && idx3 == CornerIndex(actor, j, 2);

      var x1 := transformedVertices[idx1 * 3];
      var y1 := transformedVertices[idx1 * 3 + 1];
      var z1 := transformedVertices[idx1 * 3 + 2];
      var x2 := transformedVertices[idx2 * 3];
      var y2 := transformedVertices[idx2 * 3 + 1];
      var z2 := transformedVertices[idx2 * 3 + 2];
      var x3 := transformedVertices[idx3 * 3];
      var y3 := transformedVertices[idx3 * 3 + 1];
      var z3 := transformedVertices[idx3 * 3 + 2];
      assert Vec3(x1, y1, z1) == Corner(actor, CurrentView(), env, j, 0);
      assert Vec3(x2, y2, z2) == Corner(actor, CurrentView(), env, j, 1);
      assert Vec3(x3, y3, z3) == Corner(actor, CurrentView(), env, j, 2);
      raised := CullAndDraw(actor, j, idx1, idx2, idx3, x1, y1, z1, x2, y2, z2, x3, y3, z3, lightDir, ffi);
    }

    /** The back-face test of the loop body, once the corners are read. */
    method CullAndDraw(actor: Actor, j: int, idx1: int, idx2: int, idx3: int,
                       x1: real, y1: real, z1: real, x2: real, y2: real, z2: real,
                       x3: real, y3: real, z3: real, lightDir: seq<real>, ffi: Ffi)
        returns (raised: bool)
      requires env.Valid() && Drawable(actor, CurrentView()) && 0 <= j < NumTriangles(actor)
      requires idx1 == CornerIndex(actor, j, 0) && idx2 == CornerIndex(actor, j, 1) && idx3 == CornerIndex(actor, j, 2)
      requires Vec3(x1, y1, z1) == Corner(actor, CurrentView(), env, j, 0)
      requires Vec3(x2, y2, z2) == Corner(actor, CurrentView(), env, j, 1)
      requires Vec3(x3, y3, z3) == Corner(actor, CurrentView(), env, j, 2)
      requires |lightDir| == 3 && Vec3(lightDir[0], lightDir[1], lightDir[2]) == LightDir(env)
      modifies ffi
      ensures raised <==> TriangleStep(actor, CurrentView(), env, drawWireframe, j).Raises?
      ensures ffi.log == old(ffi.log) + Drawn(TriangleStep(actor, CurrentView(), env, drawWireframe, j))
    {
      var area := EdgeCross(x1, y1, z1, x2, y2, z2, x3, y3, z3);
      if area < 0.0 {
        assert !Kept(actor, CurrentView(), env, j);
        NothingDrawn(ffi.log, TriangleStep(actor, CurrentView(), env, drawWireframe, j));
        return false;
      }
      raised := ShadeAndDraw(actor, j, idx1, idx2, idx3, x1, y1, z1, x2, y2, z2, x3, y3, z3, lightDir, ffi);
    }

    /** The two screen edges from the first corner and the z component of their cross product. */
    static method EdgeCross(x1: real, y1: real, z1: real, x2: real, y2: real, z2: real, x3: real, y3: real, z3: real)
        returns (area: real)
      ensures area == SignedArea(Vec3(x1, y1, z1), Vec3(x2, y2, z2), Vec3(x3, y3, z3))
    {
      var edge1X := x2 - x1;
      var edge1Y := y2 - y1;
      var edge2X := x3 - x1;
      var edge2Y := y3 - y1;
      area := edge1X * edge2Y - edge1Y * edge2X;
    }

    /**
     * The shading of a kept triangle: the normal, its reciprocal length and
     * the intensity; a zero normal makes `to_i` raise.
     */
    method ShadeAndDraw(actor: Actor, j: int, idx1: int, idx2: int, idx3: int,
                        x1: real, y1: real, z1: real, x2: real, y2: real, z2: real,
                        x3: real, y3: real, z3: real, lightDir: seq<real>, ffi: Ffi)
        returns (raised: bool)
      requires env.Valid() && Drawable(actor, CurrentView()) && 0 <= j < NumTriangles(actor) && Kept(actor, CurrentView(), env, j)
      requires idx1 == CornerIndex(actor, j, 0) && idx2 == CornerIndex(actor, j, 1) && idx3 == CornerIndex(actor, j, 2)
      requires Vec3(x1, y1, z1) == Corner(actor, CurrentView(), env, j, 0)
      requires Vec3(x2, y2, z2) == Corner(actor, CurrentView(), env, j, 1)
      requires Vec3(x3, y3, z3) == Corner(actor, CurrentView(), env, j, 2)
      requires |lightDir| == 3 && Vec3(lightDir[0], lightDir[1], lightDir[2]) == LightDir(env)
      modifies ffi
      ensures raised <==> TriangleStep(actor, CurrentView(), env, drawWireframe, j).Raises?
      ensures ffi.log == old(ffi.log) + Drawn(TriangleStep(actor, CurrentView(), env, drawWireframe, j))
    {
      var nx, ny, nz := SurfaceNormal(x1, y1, z1, x2, y2, z2, x3, y3, z3);
      var undefined, intensity := Shade(nx, ny, nz, lightDir);
      if undefined {
        assert !Shadable(actor, CurrentView(), env, j);
        StepRaises(actor, CurrentView(), env, drawWireframe, j);
        NothingDrawn(ffi.log, TriangleStep(actor, CurrentView(), env, drawWireframe, j));
        return true;
      }
      assert Shadable(actor, CurrentView(), env, j);
      DrawnBlock(actor, CurrentView(), env, drawWireframe, j);
      DrawShaded(actor, j, idx1, idx2, idx3, x1, y1, z1, x2, y2, z2, x3, y3, z3, intensity, ffi);
      raised := false;
    }

    /** The surface normal: edge1 × edge2 in (screen x, screen y, inv_depth) space. */
    method SurfaceNormal(x1: real, y1: real, z1: real, x2: real, y2: real, z2: real,
                         x3: real, y3: real, z3: real)
        returns (nx: real, ny: real, nz: real)
      ensures Vec3(nx, ny, nz) == Normal(Vec3(x1, y1, z1), Vec3(x2, y2, z2), Vec3(x3, y3, z3))
    {
      var edge1X, edge1Y, edge1Z := x2 - x1, y2 - y1, z2 - z1;
      var edge2X, edge2Y, edge2Z := x3 - x1, y3 - y1, z3 - z1;
      assert Vec3(edge1X, edge1Y, edge1Z) == Sub(Vec3(x2, y2, z2), Vec3(x1, y1, z1));
      assert Vec3(edge2X, edge2Y, edge2Z) == Sub(Vec3(x3, y3, z3), Vec3(x1, y1, z1));
      nx := edge1Y * edge2Z - edge1Z * edge2Y;
      ny := edge1Z * edge2X - edge1X * edge2Z;
      nz := edge1X * edge2Y - edge1Y * edge2X;
    }

    /**
     * The normal scaled by its reciprocal length, dotted with the light
     * direction. For a zero normal `1.0 / Math.sqrt(0.0)` is Infinity, the
     * scaled normal is NaN and `(intensity * 128).to_i` raises: `undefined`
     * reports that case, and `intensity` is then meaningless.
     */
    method Shade(nx: real, ny: real, nz: real, lightDir: seq<real>) returns (undefined: bool, intensity: real)
      requires env.Valid()
      requires |lightDir| == 3 && Vec3(lightDir[0], lightDir[1], lightDir[2]) == LightDir(env)
      ensures undefined <==> Dot(Vec3(nx, ny, nz), Vec3(nx, ny, nz)) == 0.0
      ensures !undefined ==> Dot(Vec3(nx, ny, nz), Vec3(nx, ny, nz)) > 0.0 &&
                             intensity == Intensity(env, Vec3(nx, ny, nz))
    {
      ghost var n := Vec3(nx, ny, nz);
      assert nx * nx + ny * ny + nz * nz == Dot(n, n);
      NormSquaredNonNegative(n);
      var root := env.Sqrt(nx * nx + ny * ny + nz * nz);
      if root == 0.0 {
        assert !(Dot(n, n) > 0.0);
        return true, 0.0;
      }
      assert Dot(n, n) != 0.0;
      undefined := false;
      var normalLength := 1.0 / root;
      var sx, sy, sz := nx * normalLength, ny * normalLength, nz * normalLength;
      assert Vec3(sx, sy, sz) == Scale(n, 1.0 / env.Sqrt(Dot(n, n)));
      intensity := sx * lightDir[0] + sy * lightDir[1] + sz * lightDir[2];
    }

    /** The draw calls of a shaded triangle: the filled triangle, then its outline when wireframe is on. */
    method DrawShaded(actor: Actor, j: int, idx1: int, idx2: int, idx3: int,
                      x1: real, y1: real, z1: real, x2: real, y2: real, z2: real,
                      x3: real, y3: real, z3: real, intensity: real, ffi: Ffi)
      requires env.Valid() && Drawable(actor, CurrentView()) && 0 <= j < NumTriangles(actor) && Shadable(actor, CurrentView(), env, j)
      requires idx1 == CornerIndex(actor, j, 0) && idx2 == CornerIndex(actor, j, 1) && idx3 == CornerIndex(actor, j, 2)
      requires Vec3(x1, y1, z1) == Corner(actor, CurrentView(), env, j, 0)
      requires Vec3(x2, y2, z2) == Corner(actor, CurrentView(), env, j, 1)
      requires Vec3(x3, y3, z3) == Corner(actor, CurrentView(), env, j, 2)
      requires intensity == Intensity(env, Normal(Vec3(x1, y1, z1), Vec3(x2, y2, z2), Vec3(x3, y3, z3)))
      modifies ffi
      ensures ffi.log == old(ffi.log) + TriangleBlock(actor, CurrentView(), env, drawWireframe, j)
    {
      var r := Trunc(intensity * 128.0);
      var g := Trunc(intensity * 128.0);
      var b := Trunc(intensity * 255.0);

      var vertices := actor.vertices;
      VertexInBuffer(actor, idx1);
      VertexInBuffer(actor, idx2);
      VertexInBuffer(actor, idx3);
      var u1 := vertices[idx1 * 5 + 3];
      var v1 := vertices[idx1 * 5 + 4];
      var u2 := vertices[idx2 * 5 + 3];
      var v2 := vertices[idx2 * 5 + 4];
      var u3 := vertices[idx3 * 5 + 3];
      var v3 := vertices[idx3 * 5 + 4];

      ghost var record := TriangleRecord(actor, CurrentView(), env, j);
      assert Triangle(x1, y1, x2, y2, x3, y3, r, g, b, 255, actor.path, u1, v1, u2, v2, u3, v3, None) == record;
      ffi.DrawTriangle(x1, y1, x2, y2, x3, y3, r, g, b, 255, actor.path, u1, v1, u2, v2, u3, v3, None);
      if drawWireframe {
        ffi.DrawLine2(x1, y1, x2, y2, 255, 128, 255, 255, 1);
        ffi.DrawLine2(x2, y2, x3, y3, 255, 128, 255, 255, 1);
        ffi.DrawLine2(x3, y3, x1, y1, 255, 128, 255, 255, 1);
        ghost var p1, p2, p3 := Vec3(x1, y1, z1), Vec3(x2, y2, z2), Vec3(x3, y3, z3);
        assert Outline(actor, CurrentView(), env, j) == [WireLine(p1, p2), WireLine(p2, p3), WireLine(p3, p1)];
      }
    }
  }

  /** Every key of `contexts` keeps an actor list once `name` is added to both hashes. */
  lemma StillCovered<C, L>(contexts0: map<Name, C>, layers0: map<Name, L>, contexts: map<Name, C>,
                           layers: map<Name, L>, name: Name, list: L)
    requires forall n <- contexts0 :: n in layers0
    requires contexts.Keys == contexts0.Keys + {name}
    requires layers == layers0 || layers == layers0[name := list]
    requires name in layers
    ensures forall n <- contexts :: n in layers
  {
  }

  /**
   * Registering the same name twice returns the same live list, and the
   * second registration's context replaces the first.
   */
  method NewLayerTwice(r: RendererState, name: Name, z1: real, z2: real, projection: Projection)
      returns (first: ActorList, second: ActorList)
    requires r.Valid()
    modifies r`layerContexts, r`contextOrder, r`sortedLayers, r`layers
    ensures r.Valid()
    ensures first == second && name in r.layers && r.layers[name] == first
    ensures name in r.layerContexts && r.layerContexts[name] == LayerContext(z2, name, Sprite, projection, None, None)
  {
    first := r.NewLayer(name, z1, projection);
    second := r.NewLayer(name, z2, projection);
  }
}
