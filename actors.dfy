/**
 * The actors the application puts into a layer. A layer's actor list is a
 * live Ruby array: the renderer hands out the same array for a name every time,
 * and the application appends to it or replaces its items between frames.
 */
module Actors {
  import opened Vectors

  datatype Actor =
    /** A sprite: world position `x, y, z`, size `w, h` and texture `path`. */
    | SpriteActor(x: real, y: real, z: real, w: real, h: real, path: string)
    /**
     * A textured mesh: `vertices` interleaves x, y, z, u, v per vertex, and
     * `indices` lists three vertex numbers per triangle.
     */
    | MeshActor(vertices: seq<real>, indices: seq<int>, path: string)

  function Position(a: Actor): Vec3
    requires a.SpriteActor?
  {
    Vec3(a.x, a.y, a.z)
  }

  /** One entry of `@layers`: the array returned by `new_layer`. */
  class ActorList {
    var actors: seq<Actor>

    constructor ()
      ensures actors == []
    {
      actors := [];
    }
  }
}
