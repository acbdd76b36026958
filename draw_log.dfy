/**
 * The host's drawing primitives, as the renderer calls them through `ffi`.
 * The rasteriser behind them is not part of this model: each call becomes one
 * record appended to the sink's log, with the arguments the renderer passed.
 */
module DrawLog {
  import opened Wrappers

  datatype DrawCall =
    /** `ffi.draw_sprite_5` with its 25 positional arguments. */
    | Sprite5(x: real, y: real, w: real, h: real, path: string,
              angle: Option<real>, alpha: Option<int>,
              red: Option<int>, green: Option<int>, blue: Option<int>,
              tileX: Option<real>, tileY: Option<real>, tileW: Option<real>, tileH: Option<real>,
              flipHorizontally: Option<bool>, flipVertically: Option<bool>,
              angleAnchorX: Option<real>, angleAnchorY: Option<real>,
              sourceX: Option<real>, sourceY: Option<real>, sourceW: Option<real>, sourceH: Option<real>,
              blendmode: Option<int>,
              anchorX: Option<real>, anchorY: Option<real>)
    /** `ffi.draw_triangle`: three corners, colour, texture path, three texture coordinates, blend mode. */
    | Triangle(x1: real, y1: real, x2: real, y2: real, x3: real, y3: real,
               r: int, g: int, b: int, a: int, path: string,
               u1: real, v1: real, u2: real, v2: real, u3: real, v3: real,
               blendmode: Option<int>)
    /** `ffi.draw_line_2`: two end points, colour and stroke width. */
    | Line2(x1: real, y1: real, x2: real, y2: real, r: int, g: int, b: int, a: int, width: int)

  /**
   * The sprite call every sprite pass makes: every optional argument nil and
   * the anchor at the sprite's centre.
   */
  function CenteredSprite(x: real, y: real, w: real, h: real, path: string): (d: DrawCall)
    ensures IsCentered(d)
    ensures d.x == x && d.y == y && d.w == w && d.h == h && d.path == path
  {
    Sprite5(x, y, w, h, path, None, None, None, None, None, None, None, None, None,
            None, None, None, None, None, None, None, None, None, Some(0.5), Some(0.5))
  }

  /** A sprite record that leaves every optional argument unset and anchors at (0.5, 0.5). */
  predicate IsCentered(d: DrawCall) {
    d.Sprite5? &&
    d.angle.None? && d.alpha.None? && d.red.None? && d.green.None? && d.blue.None? &&
    d.tileX.None? && d.tileY.None? && d.tileW.None? && d.tileH.None? &&
    d.flipHorizontally.None? && d.flipVertically.None? &&
    d.angleAnchorX.None? && d.angleAnchorY.None? &&
    d.sourceX.None? && d.sourceY.None? && d.sourceW.None? && d.sourceH.None? &&
    d.blendmode.None? &&
    d.anchorX == Some(0.5) && d.anchorY == Some(0.5)
  }

  /** The `ffi` object handed to the draw routines: a host sink that records every call. */
  class Ffi {
    var log: seq<DrawCall>

    constructor ()
      ensures log == []
    {
      log := [];
    }

    method DrawSprite5(x: real, y: real, w: real, h: real, path: string,
                       angle: Option<real>, alpha: Option<int>,
                       red: Option<int>, green: Option<int>, blue: Option<int>,
                       tileX: Option<real>, tileY: Option<real>, tileW: Option<real>, tileH: Option<real>,
                       flipHorizontally: Option<bool>, flipVertically: Option<bool>,
                       angleAnchorX: Option<real>, angleAnchorY: Option<real>,
                       sourceX: Option<real>, sourceY: Option<real>, sourceW: Option<real>, sourceH: Option<real>,
                       blendmode: Option<int>,
                       anchorX: Option<real>, anchorY: Option<real>)
      modifies this
      ensures log == old(log) + [Sprite5(x, y, w, h, path, angle, alpha, red, green, blue,
                                         tileX, tileY, tileW, tileH, flipHorizontally, flipVertically,
                                         angleAnchorX, angleAnchorY, sourceX, sourceY, sourceW, sourceH,
                                         blendmode, anchorX, anchorY)]
    {
      log := log + [Sprite5(x, y, w, h, path, angle, alpha, red, green, blue,
                            tileX, tileY, tileW, tileH, flipHorizontally, flipVertically,
                            angleAnchorX, angleAnchorY, sourceX, sourceY, sourceW, sourceH,
                            blendmode, anchorX, anchorY)];
    }

    method DrawTriangle(x1: real, y1: real, x2: real, y2: real, x3: real, y3: real,
                        r: int, g: int, b: int, a: int, path: string,
                        u1: real, v1: real, u2: real, v2: real, u3: real, v3: real,
                        blendmode: Option<int>)
      modifies this
      ensures log == old(log) + [Triangle(x1, y1, x2, y2, x3, y3, r, g, b, a, path,
                                          u1, v1, u2, v2, u3, v3, blendmode)]
    {
      log := log + [Triangle(x1, y1, x2, y2, x3, y3, r, g, b, a, path, u1, v1, u2, v2, u3, v3, blendmode)];
    }

    method DrawLine2(x1: real, y1: real, x2: real, y2: real, r: int, g: int, b: int, a: int, width: int)
      modifies this
      ensures log == old(log) + [Line2(x1, y1, x2, y2, r, g, b, a, width)]
    {
      log := log + [Line2(x1, y1, x2, y2, r, g, b, a, width)];
    }
  }
}
