# rubyrenderer core, modelled in Dafny

This project models the core of `renderer.rb` from rubyrenderer, a small renderer for a Ruby game host. The `Renderer` module keeps three pieces of state:

- a layer registry: `@layers`, `@layer_contexts` and the z-sorted `@sorted_layers`;
- a camera basis that `calc_camera` rebuilds every frame from the `@camera` hash;
- the `@draw_wireframe` switch.

Its draw routines turn the actors of a layer into calls on the host's `ffi` object. There are three sprite passes (screen, orthographic, perspective) and one perspective mesh pass. The mesh pass:

- transforms an interleaved vertex buffer;
- culls back-facing triangles;
- shades each kept triangle flat;
- draws it, optionally followed by a wireframe outline.

The model follows the source's imperative shape:

- `Renderer.RendererState` is a class whose fields are the module's instance variables.
- Its methods are the singleton methods, with the same `while` loops, the same arithmetic and the same branches.
- The transformed vertex buffer is an `array<real>` filled in place.
- `ffi` is a `DrawLog.Ffi` object: every `draw_sprite_5`, `draw_triangle` and `draw_line_2` call appends one `DrawCall` record, holding the arguments passed, to its `log`.

Each method is proved against specification functions:

- `SpritePasses.ScreenPass`, `OrthographicPass` and `PerspectivePass`;
- `MeshPass.MeshLayer`, built from `TriangleStep`, `Run` and `Chain`;
- `CameraModel.CameraBasis`;
- `Layers.IsSortedView`.

Lemmas then state what those functions mean: orthogonality of the basis, one sprite per actor, culling by signed area, the record layout with and without wireframe, and when the mesh pass raises.

Floats are modelled as `real`. `Math.sqrt` and `Math.tan` are fields of `Numerics.Env` and stay uninterpreted. The model assumes only two facts about square roots: √0 = 0, and √x > 0 for x > 0. `DEG2RAD`, `SCREEN_CX` and `SCREEN_CY` are not defined in `renderer.rb`, so they are fields of `Env` too.

A triangle that survives culling but has a zero normal is handled as in Ruby:

1. `1.0 / Math.sqrt(0.0)` is Infinity.
2. The scaled normal and the intensity are NaN.
3. `(intensity * 128).to_i` raises `FloatDomainError`.

The mesh methods report that outcome as `Status.FloatDomainError`. The log then keeps the draws made before the raise.

Three facts about the code shape what the model states:

- **`new_layer` overwrites.** `new_layer` replaces an existing context on every call (renderer.rb:11). `NewLayer` and `NewLayerTwice` state the overwrite.
- **No depth cull for perspective sprites.** `draw_sprite_layer_perspective` has no depth guard (renderer.rb:128-135): it draws every actor, including one at or behind the camera plane. The model requires only that the divisor exists.
- **No tie order.** `sort_by` (renderer.rb:12) promises no order among equal z. `@sorted_layers` is therefore stated as any z-ascending permutation of the hash's pairs (`Layers.IsSortedView`), and nothing is said about the order of equal z.

## Model

| member | source | states |
|---|---|---|
| Renderer.RendererState.constructor | renderer.rb:1-5 | the registry starts empty: no layers, no contexts, an empty sorted view; wireframe drawing is on; the basis is not yet computed (`basisReady` is false, the basis instance variables being `nil` in Ruby); the invariant `Valid` holds |
| Renderer.RendererState.LayerFor | renderer.rb:2 | `@layers[name]` returns the stored list, or stores and returns a fresh empty list when the name is missing; nothing else in `@layers` changes |
| Renderer.RendererState.NewLayer | renderer.rb:10-14 | the context for `name` is replaced by the given z, type, projection and tables; all other contexts are unchanged; a new name is appended to the hash order; the sorted view is a z-ascending permutation of the new contexts' pairs; the same live list comes back for a known name, a fresh empty one for an unknown name; the registry invariant is preserved |
| Renderer.RendererState.StoreContext | renderer.rb:11-12 | storing the context and re-sorting keeps the hash consistent; the new sorted view is z-ascending and a permutation of the new hash's pairs |
| Renderer.NewLayerTwice | renderer.rb:10-14 | registering one name twice returns the same live list both times; the second call's z is the stored one |
| Layers.RegisterKeepsWellFormed | renderer.rb:11 | after storing a context under its own name, each key is still listed once and every context sits under its own name |
| Layers.Entries | renderer.rb:12 | the `[name, context]` pairs of the hash, in hash order, one per key |
| Layers.InsertByZPermutes | renderer.rb:12 | inserting an entry adds exactly that entry |
| Layers.InsertByZSorted | renderer.rb:12 | inserting into a z-ascending sequence keeps it z-ascending |
| Layers.SortByZPermutes | renderer.rb:12 | the sorted view is a permutation of the hash's pairs |
| Layers.SortByZSorted | renderer.rb:12 | the sorted view is non-decreasing in z |
| Layers.SortByZIsSortedView | renderer.rb:12 | a z-ascending permutation of the hash's pairs always exists (`SortByZ` is one) |
| Layers.SortedEntriesMembership | renderer.rb:12 | a pair is in any permutation of the hash's pairs if and only if its name is a key and its context is the one stored there |
| Layers.SortedView | renderer.rb:12 | every sorted view of a consistent hash is z-ascending, has one pair per key, and holds exactly the stored pairs (both directions) |
| Layers.NoDuplicatesCard | renderer.rb:11-12 | a hash order without repeated keys has as many entries as there are keys |
| Layers.DistinctZDrawOrder | renderer.rb:12 | registering z = 5, 1, 3 admits exactly one sorted view, the draw order 1, 3, 5, whatever tie-break `sort_by` uses |
| Renderer.RendererState.Tick | renderer.rb:16-19 | `tick` leaves the registry invariant intact and the basis fields equal to the basis of the current camera, which from then on counts as computed |
| Renderer.RendererState.DrawOverride | renderer.rb:21-23 | draws exactly the perspective mesh pass of the `foreground_mesh` list; a missing list is created fresh and empty and is the only entry added to `@layers`, which is otherwise unchanged; reports the raise if and only if the pass raises; requires the basis to be computed when the list has a mesh vertex |
| Renderer.RendererState.CalcCamera | renderer.rb:25-64 | after `calc_camera` the position, zoom, `@h_fov` = tan(fov·DEG2RAD·0.5) and the forward, right and up fields are the camera's basis, and the basis counts as computed |
| Renderer.RendererState.CalcBasis | renderer.rb:38-63 | the three steps leave forward, right and up equal to the basis vectors |
| Renderer.RendererState.CalcForward | renderer.rb:39-45 | forward is target − position, scaled by the reciprocal of its length |
| Renderer.RendererState.CalcRight | renderer.rb:48-54 | right is forward × up-hint, scaled by the reciprocal of its length |
| Renderer.RendererState.CalcUp | renderer.rb:57-63 | up is right × forward, scaled by the reciprocal of its length |
| CameraModel.NormalizedPositive | renderer.rb:42-45 | the reciprocal length is positive, so the scaled vector is non-zero and points the same way as the original |
| CameraModel.RightNonZero | renderer.rb:48-51 | for a camera whose target differs from its position and whose up hint is not along the sight line, the right vector before scaling is non-zero, so its length is not zero |
| CameraModel.UpNonZero | renderer.rb:57-60 | the recomputed up vector before scaling is non-zero (by Lagrange's identity, since right ⟂ forward) |
| CameraModel.BasisSteps | renderer.rb:39-63 | the basis is built as normalised sight line, normalised forward × hint, normalised right × forward, with every length non-zero |
| CameraModel.BasisFromSteps | renderer.rb:39-63 | vectors produced by the three steps in turn are the basis |
| CameraModel.BasisOrthogonal | renderer.rb:39-63 | right·forward = 0, up·forward = 0 and up·right = 0 |
| CameraModel.BasisOriented | renderer.rb:39-63 | forward points toward the target; all three vectors are non-zero; (right × forward)·up > 0 |
| CameraModel.BasisFollowsUpHint | renderer.rb:48-63 | right is orthogonal to the up hint, and the recomputed up keeps to the hint's side (up·hint > 0) |
| Renderer.RendererState.DrawSpriteLayerScreen | renderer.rb:166-202 | appends exactly the screen pass of the layer, one record per actor, in order |
| SpritePasses.ScreenPassThrough | renderer.rb:166-202 | the screen pass has one centred record per actor, in actor order, with the actor's x, y, w, h and path unchanged |
| Renderer.RendererState.DrawSpriteLayerOrthographic | renderer.rb:66-111 | appends exactly the orthographic pass: per actor, x = −(c·right)·zoom, y = (c·up)·zoom, w and h times zoom; requires the basis to be computed unless the layer is empty |
| SpritePasses.OrthographicShift | renderer.rb:76-85 | moving an actor by d moves its sprite by −(d·right)·zoom and (d·up)·zoom and leaves its size unchanged |
| SpritePasses.OrthographicIgnoresDepth | renderer.rb:76-81 | moving an actor along a direction orthogonal to right and up leaves its sprite unchanged |
| Renderer.RendererState.DrawSpriteLayerPerspective | renderer.rb:113-164 | appends exactly the perspective pass, one record per actor with no depth guard: divisor = 1/(c·forward)/`@h_fov`, x = −(c·right)·divisor, y = (c·up)·divisor, w and h times divisor; requires the basis to be computed unless the layer is empty |
| SpritePasses.ProjectedPassesCentered | renderer.rb:66-164 | the orthographic and perspective passes have one centred record per actor, carrying the actor's path |
| SpritePasses.PerspectiveForwardAxis | renderer.rb:123-133 | under the basis `calc_camera` computes, an actor on the forward axis at non-zero distance projects to (0, 0) |
| SpritePasses.PerspectiveRay | renderer.rb:123-139 | actors on one ray from the camera project to the same point, and their size shrinks by the scale factor |
| SpritePasses.RayDivisor | renderer.rb:128-129 | scaling the camera vector by k divides the perspective divisor by k |
| SpritePasses.RayCentre | renderer.rb:132-133 | scaling the camera vector by k keeps the projected x and y |
| SpritePasses.RaySize | renderer.rb:138-139 | scaling the camera vector by k divides the projected w and h by k |
| Renderer.RendererState.DrawMeshLayerOrthographic | renderer.rb:204-206 | draws nothing |
| Renderer.RendererState.DrawMeshLayerScreen | renderer.rb:335-337 | draws nothing |
| Renderer.RendererState.DrawMeshLayerPerspective | renderer.rb:208-333 | appends exactly the mesh pass of the layer: each actor's draws in layer order, stopping at the first actor that raises; reports the raise if and only if it happened; requires the basis to be computed when some actor has a vertex (`MeshPass.ReadsBasis`) |
| Renderer.RendererState.LightDirection | renderer.rb:209-211 | the light direction is (0.75, 0, 0.5) divided by its length |
| Renderer.RendererState.DrawMeshActor | renderer.rb:217-331 | one actor: the vertex loop, then the triangle loop; appends that actor's draws and reports its raise |
| Renderer.RendererState.TransformVertices | renderer.rb:219-246 | allocates a buffer of 3 × (vertices.size / 5) values; slot 3j holds vertex j's screen x, 3j+1 its screen y, 3j+2 its divisor zoom/(c·forward + ε) |
| Renderer.RendererState.TransformVertex | renderer.rb:228-243 | the three values the loop stores for vertex j: (c·right)·divisor·SCREEN_CX, (c·up)·divisor·SCREEN_CY and the divisor, read from stride-5 offsets 0–2 |
| MeshPass.VertexInBuffer | renderer.rb:228-230 | vertex j's five fields lie inside the vertex buffer |
| Renderer.RendererState.DrawTriangles | renderer.rb:248-329 | the triangle loop appends the draws of every triangle in index order, stopping at the first raise, and reports it |
| Renderer.RendererState.DrawTriangle | renderer.rb:250-264 | reads the three indices at 3j..3j+2 and the corners at stride 3 (all in bounds), and appends that triangle's draws |
| MeshPass.CornerIndex | renderer.rb:250-252 | every index read names a vertex of the buffer |
| Renderer.RendererState.CullAndDraw | renderer.rb:266-274 | a triangle with negative signed area draws nothing and does not raise; any other goes on to shading |
| Renderer.RendererState.EdgeCross | renderer.rb:267-271 | edge1ₓ·edge2ᵧ − edge1ᵧ·edge2ₓ is the triangle's signed screen area |
| MeshPass.CullingTest | renderer.rb:266-274 | a triangle is culled if and only if its signed area is negative; it emits if and only if the area is ≥ 0 and the normal is non-zero |
| MeshPass.StepsCulledIff | renderer.rb:271-273 | a triangle's step is a cull if and only if the triangle fails the area test |
| MeshPass.KeptTriangles | renderer.rb:266-274 | the triangles that pass the area test, all of them and only them, in increasing index order |
| MeshPass.WindingExample | renderer.rb:271 | the counter-clockwise unit triangle is kept; its mirror image is culled |
| MeshPass.AreaIsNormalZ | renderer.rb:271-281 | the area tested on line 271 is the z component of the surface normal |
| Renderer.RendererState.ShadeAndDraw | renderer.rb:276-291 | a kept triangle with a zero normal raises and draws nothing; one with a non-zero normal draws its block |
| Renderer.RendererState.SurfaceNormal | renderer.rb:277-281 | (nx, ny, nz) is edge1 × edge2 in (screen x, screen y, inv_depth) space |
| Renderer.RendererState.Shade | renderer.rb:282-287 | the intensity is undefined if and only if the normal is zero; otherwise it is the normalised normal dotted with the light direction |
| Renderer.RendererState.DrawShaded | renderer.rb:289-326 | appends the triangle record, followed by the three outline lines only when `@draw_wireframe` is set |
| MeshPass.TriangleRecordFields | renderer.rb:289-320 | the record carries the transformed corners; UVs from offsets 3 and 4 of each corner's stride-5 record; r = g = trunc(intensity·128); b = trunc(intensity·255); alpha 255; the actor's path; no blend mode |
| Numerics.Trunc | renderer.rb:289-291 | `to_i` truncates toward zero: the result lies within 1 of the value, on the zero side |
| MeshPass.ColourChannels | renderer.rb:289-291 | for intensity in [0, 1], r and g lie in 0..128 and b in 0..255, with (128, 128, 255) at intensity 1 |
| MeshPass.StepRaises | renderer.rb:282-291 | a triangle raises if and only if it passes the area test with a zero normal |
| MeshPass.RepeatedVertexRaises | renderer.rb:266-291 | a triangle whose three indices name one vertex passes the cull and raises |
| MeshPass.StepShape | renderer.rb:266-326 | when every kept triangle has a non-zero normal, no triangle raises; a triangle emits if and only if it is kept; it emits its record plus, with wireframe, its outline |
| MeshPass.DrawnBlock | renderer.rb:302-326 | a kept, shadable triangle emits exactly its record followed by its outline when wireframe is on |
| MeshPass.MeshRaisesIff | renderer.rb:248-329 | an actor's triangle loop raises if and only if some kept triangle has a zero normal |
| MeshPass.MeshBlocks | renderer.rb:248-329 | with no zero normals among kept triangles, the actor's draws are one block of w records per kept triangle (w = 4 with wireframe, 1 without), in index order |
| MeshPass.MeshLayout | renderer.rb:302-326 | without wireframe, draw q is the record of kept triangle q; with wireframe, draw 4q is that record and draws 4q+1..4q+3 its lines v1→v2, v2→v3, v3→v1 in (255, 128, 255, 255), width 1 |
| MeshPass.Surviving | renderer.rb:271-273 | the positions of non-culled steps: all of them and only them, strictly increasing |
| MeshPass.RunRaisesIff | renderer.rb:249-329 | a loop of steps raises if and only if one of its steps raises |
| MeshPass.RunLayout | renderer.rb:249-329 | a loop without raises lays the emitted draws out in blocks, one per surviving step, in order |
| MeshPass.RunExtend | renderer.rb:249-329 | one more pass of the loop adds that triangle's draws and raises only if that triangle does |
| MeshPass.RunStopsAtRaise | renderer.rb:249-329 | after a raise, the remaining triangles draw nothing |
| MeshPass.ChainExtend | renderer.rb:216-332 | one more actor appends its draws and ends the pass only if it raised |
| MeshPass.ChainStopsAtRaise | renderer.rb:216-332 | after an actor raises, the remaining actors draw nothing |
| SingletonMethods.NewLayerAsWrittenRejectsArguments | renderer.rb:8-14 | as written, calling `new_layer` with 3 to 6 arguments raises `ArgumentError` |
| SingletonMethods.NewLayerIntendedAccepts | renderer.rb:8-14 | with the trailing comma removed, `new_layer` accepts exactly 3 to 6 arguments, and the four accessors still read with none |
| SingletonMethods.AccessorWins | renderer.rb:8 | an attribute named in `attr_accessor` ends up bound to a reader, whatever was defined under that name before |
| SingletonMethods.AccessorsKeep | renderer.rb:8 | accessors for other names leave an existing method in place |

## Left out

- `tick` hands `self` to `$gtk.args.outputs.primitives` (renderer.rb:18). That is the host's output queue, so `Tick` models only the `calc_camera` call.
- The host primitives behind `ffi` are a foreign rasteriser. Each call is one record appended to `Ffi.log`.
- The values of `Math.sqrt` and `Math.tan`, and `DEG2RAD`, `SCREEN_CX`, `SCREEN_CY`, are parameters (`Numerics.Env`). `Float::EPSILON` is the exact real 2⁻⁵². IEEE rounding is not modelled. Unit lengths and intensity values are not proved, because they depend on the exact square root.
- Infinity and NaN are not modelled. Several Ruby divisions by zero produce them instead of raising, so each one is excluded by a precondition:
  - a camera whose target equals its position, or whose up hint is parallel to the sight line: `NonDegenerate`;
  - a sprite at depth 0, or `@h_fov` = 0: `Projectable`;
  - a mesh vertex at depth exactly −ε: `DivisorsDefined`.

  The one NaN that reaches `to_i` (a kept triangle with a zero normal) is modelled as the `FloatDomainError` raise.
- Meshes whose indices fall outside 0..`vertices.size / 5` − 1 are excluded by `IndicesInRange`. The model does not cover what Ruby does with them:
  - An index at or beyond `vertices.size / 5`, or below −`vertices.size / 5`, reads `nil` from `transformed_vertices`. If `idx1` is affected and `idx2` is not, `x2 - x1` is Float − nil and raises `TypeError`. If `idx2` is affected, or `idx3` while the other two are not, the first subtraction with a `nil` on its left (`x2 - x1` or `x3 - x1`) raises `NoMethodError` (renderer.rb:266-269).
  - An index from −`vertices.size / 5` to −1 raises nothing. Ruby counts it from the end, so the corners are those of vertex `vertices.size / 5` + idx, and the triangle is culled, shaded and drawn as usual. Its UVs `vertices[idx * 5 + 3]` and `vertices[idx * 5 + 4]` (renderer.rb:292-297) count from the end of `vertices`, so they belong to the same vertex only when `vertices.size` is a multiple of 5.
- `z_values` (renderer.rb:224, renderer.rb:300) is not modelled. It is written and never read. It is allocated with `num_triangles / 3` slots but written at every `j < num_triangles`, which works only because Ruby arrays grow on assignment.
- Intensity is not clamped (renderer.rb:288 is commented out). `ColourChannels` states the channel ranges only for intensity in [0, 1].
- Symbols are modelled as strings. The `type` default `:sprite` and the `nil` table defaults are Dafny default arguments. The tables are stored and never read.
- Some loop bodies are helper methods called from the loop: `TransformVertex`, `DrawTriangle`, `CullAndDraw`, `EdgeCross`, `ShadeAndDraw`, `SurfaceNormal`, `Shade` and `DrawShaded`. They run the same statements in the same order on the same values.
- Renderer.RendererState.Shade: on a zero normal it returns `undefined` and the placeholder intensity 0.0, where Ruby computes NaN. The only consumer of that NaN is `to_i`, which raises, so no draw depends on the placeholder.
- Sprite passes take the actors they are given. `layer.size` is the length of the `ActorList`'s `actors` sequence, which the application fills between frames.
- `draw_override`'s argument is `ffi`. The perspective mesh pass is the only routine it calls. Nothing in renderer.rb calls the other draw routines or reads `@sorted_layers`; they are public singleton methods, modelled as methods any caller may invoke.
- Drawing before the first `tick`: until `calc_camera` runs, `@camera_x` and the other basis instance variables are `nil`, so `x - @camera_x` raises `TypeError` (renderer.rb:76, renderer.rb:123, renderer.rb:232) for the first actor, or the first mesh vertex, a pass reaches. The model does not model that raise. The ghost field `basisReady` records whether `calc_camera` has run, and the orthographic and perspective sprite passes, the perspective mesh pass (through `DrawMeshActor`, `TransformVertices` and `TransformVertex`) and `DrawOverride` require it whenever they would read the basis.

## Findings

| source | as written | input that shows it | evidently intended | confidence | as-written member | corrected member |
|---|---|---|---|---|---|---|
| renderer.rb:8-14 | `attr_accessor :camera, :light, :layers, :draw_wireframe,` ends with a comma, so the following `def new_layer ... end` becomes its fifth argument. The `def` evaluates to `:new_layer`, and `attr_accessor` then installs a zero-argument reader `new_layer` (and a writer `new_layer=`) over the method just defined | `Renderer.new_layer(:background, 0, :screen)` raises `ArgumentError` (given 3, expected 0) | four accessors, then `new_layer` as a method taking 3 to 6 arguments | high, not executed | SingletonMethods.NewLayerAsWrittenRejectsArguments | SingletonMethods.NewLayerIntendedAccepts |

The rest of the model uses the intended method: `Renderer.RendererState.NewLayer` is `new_layer` as its body is written.
