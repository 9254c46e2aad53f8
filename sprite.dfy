/** A screen-space sprite: placed by normalized coordinates and an alignment anchor, and
    scaled so that its on-screen proportions follow the viewport's aspect ratio. The
    browser window is the `Viewport` argument; texture, material and fog are not modelled. */
module ScreenSprite {
  import opened Wrappers
  import opened Geometry

  /** The window's inner size in pixels. */
  datatype Viewport = Viewport(innerWidth: real, innerHeight: real)

  /** A window the aspect ratio can be taken of: some height, and no negative width. */
  predicate ValidViewport(v: Viewport) {
    v.innerWidth >= 0.0 && v.innerHeight > 0.0
  }

  /** The viewport's width over its height. */
  function Aspect(v: Viewport): (r: real)
    requires ValidViewport(v)
    ensures r >= 0.0 && r * v.innerHeight == v.innerWidth
    ensures r > 0.0 <==> v.innerWidth > 0.0
  {
    v.innerWidth / v.innerHeight
  }

  /** The alignment flags setPos reads. */
  datatype Align = Align(left: bool, top: bool, bottom: bool, right: bool, center: bool)

  /** setPos's alignment when none is given: centred. */
  const DefaultAlign: Align := Align(false, false, false, false, true)

  const Middle: Vec2 := Vec2(0.5, 0.5)

  /** The anchor setPos moves the sprite's center to, first matching case wins; `None`
      when no case matches and the anchor stays as it was. Right+bottom gives the same
      anchor as left+bottom, so the bottom-right corner (1, 1) is never chosen. */
  function AnchorFor(align: Align): (r: Option<Vec2>)
    ensures align.center ==> r == Some(Middle)
    ensures r.None? <==> !align.center && !((align.left || align.right) && (align.top || align.bottom))
    ensures r.Some? ==> r.value in {Middle, Vec2(0.0, 0.0), Vec2(0.0, 1.0), Vec2(1.0, 0.0)}
    ensures r != Some(Vec2(1.0, 1.0))
  {
    if align.center then Some(Middle)
    else if align.left && align.top then Some(Vec2(0.0, 0.0))
    else if align.left && align.bottom then Some(Vec2(0.0, 1.0))
    else if align.right && align.top then Some(Vec2(1.0, 0.0))
    else if align.right && align.bottom then Some(Vec2(0.0, 1.0))
    else None
  }

  /** The four corner alignments without `center`: left+top, left+bottom and right+top
      pick three distinct corners, and right+bottom repeats left+bottom's. */
  lemma CornerAnchors()
    ensures AnchorFor(Align(true, true, false, false, false)) == Some(Vec2(0.0, 0.0))
    ensures AnchorFor(Align(true, false, true, false, false)) == Some(Vec2(0.0, 1.0))
    ensures AnchorFor(Align(false, true, false, true, false)) == Some(Vec2(1.0, 0.0))
    ensures AnchorFor(Align(false, false, true, true, false)) == AnchorFor(Align(true, false, true, false, false))
  {
  }

  /** The pixel position of normalized screen coordinates: (x, y) as fractions of half the
      viewport's width and height, at the given depth. */
  function PixelPosition(x: real, y: real, v: Viewport, depth: real): (p: Vec3)
    ensures p.x * 2.0 == v.innerWidth * x && p.y * 2.0 == v.innerHeight * y && p.z == depth
    ensures x == 0.0 ==> p.x == 0.0
    ensures y == 0.0 ==> p.y == 0.0
    ensures x == 1.0 ==> p.x * 2.0 == v.innerWidth
    ensures x == -1.0 ==> p.x * 2.0 == -v.innerWidth
    ensures y == 1.0 ==> p.y * 2.0 == v.innerHeight
    ensures y == -1.0 ==> p.y * 2.0 == -v.innerHeight
  {
    Vec3(v.innerWidth / 2.0 * x, v.innerHeight / 2.0 * y, depth)
  }

  /** The scale for a logical size w x h: the height is stretched by how much wider the
      viewport is now than when the sprite was made. */
  function ScaleFor(w: real, h: real, aspect: real, initAspect: real, depth: real): (s: Vec3)
    requires initAspect > 0.0
    ensures s.x == w && s.z == depth
    ensures s.y * initAspect == h * aspect
    ensures aspect == initAspect ==> s.y == h
  {
    Vec3(w, h * aspect / initAspect, depth)
  }

  class Sprite {
    var center: Vec2
    var position: Vec3
    var scale: Vec3
    var x: real
    var y: real
    /** The logical size; absent until the first setSize. */
    var w: Option<real>
    var h: Option<real>
    var depth: real
    /** The aspect ratio at construction; never reassigned. */
    const initScreenAspect: real

    ghost predicate Valid()
      reads this
    {
      initScreenAspect > 0.0
    }

    /** A centred sprite at the origin, at `depth`, scaled to the image's pixel size with
        its height stretched by the viewport's aspect ratio, which it remembers. */
    constructor (imageWidth: real, imageHeight: real, viewport: Viewport, depth: real := 1.0)
      requires ValidViewport(viewport) && viewport.innerWidth > 0.0
      ensures Valid()
      ensures position == Vec3(0.0, 0.0, depth) && x == 0.0 && y == 0.0
      ensures center == Middle
      ensures initScreenAspect == Aspect(viewport)
      ensures scale == Vec3(imageWidth, imageHeight * Aspect(viewport), depth)
      ensures this.depth == depth && w == None && h == None
    {
      position := Vec3(0.0, 0.0, depth);
      x := 0.0;
      y := 0.0;
      center := Middle;
      var screenAspect := Aspect(viewport);
      initScreenAspect := screenAspect;
      scale := Vec3(imageWidth, imageHeight * screenAspect, depth);
      this.depth := depth;
      w := None;
      h := None;
    }

    /** Anchors the sprite as `align` says and places it at the pixel point of (x, y). */
    method SetPos(x: real, y: real, viewport: Viewport, align: Align := DefaultAlign)
      modifies this`center, this`x, this`y, this`position
      ensures center == AnchorFor(align).GetOr(old(center))
      ensures this.x == x && this.y == y
      ensures position == PixelPosition(x, y, viewport, depth)
    {
      if align.center {
        center := Middle;
      } else if align.left && align.top {
        center := Vec2(0.0, 0.0);
      } else if align.left && align.bottom {
        center := Vec2(0.0, 1.0);
      } else if align.right && align.top {
        center := Vec2(1.0, 0.0);
      } else if align.right && align.bottom {
        center := Vec2(0.0, 1.0);
      }
      var width := viewport.innerWidth / 2.0;
      var height := viewport.innerHeight / 2.0;
      this.x := x;
      this.y := y;
      position := Vec3(width * x, height * y, depth);
    }

    /** Records the logical size and scales to it for the current viewport. */
    method SetSize(w: real, h: real, viewport: Viewport)
      requires Valid() && ValidViewport(viewport)
      modifies this`w, this`h, this`scale
      ensures this.w == Some(w) && this.h == Some(h)
      ensures scale == ScaleFor(w, h, Aspect(viewport), initScreenAspect, depth)
    {
      this.w := Some(w);
      this.h := Some(h);
      var screenAspect := Aspect(viewport);
      scale := Vec3(w, h * screenAspect / initScreenAspect, depth);
    }

    /** Changes the depth only; position and scale keep the old depth until they are
        next recomputed. */
    method SetDepth(depth: real)
      modifies this`depth
      ensures this.depth == depth
    {
      this.depth := depth;
    }

    /** Rescales the recorded logical size for the viewport's current aspect ratio. */
    method OnResizeWindow(viewport: Viewport)
      requires Valid() && ValidViewport(viewport) && w.Some? && h.Some?
      modifies this`scale
      ensures scale == ScaleFor(w.value, h.value, Aspect(viewport), initScreenAspect, depth)
    {
      var screenAspect := Aspect(viewport);
      scale := Vec3(w.value, h.value * screenAspect / initScreenAspect, depth);
    }
  }

  /** A resize that leaves the viewport as it was at the last setSize leaves the scale as
      it was. */
  method ResizeWithSameViewport(s: Sprite, w: real, h: real, viewport: Viewport)
    requires s.Valid() && ValidViewport(viewport)
    modifies s`w, s`h, s`scale
    ensures s.w == Some(w) && s.h == Some(h)
    ensures s.scale == ScaleFor(w, h, Aspect(viewport), s.initScreenAspect, s.depth)
  {
    s.SetSize(w, h, viewport);
    ghost var sized := s.scale;
    s.OnResizeWindow(viewport);
    assert s.scale == sized;
  }

  /** setDepth followed by setPos: the new depth reaches the position, while the scale
      keeps the depth it was computed with. */
  method DepthThenPos(s: Sprite, depth: real, x: real, y: real, viewport: Viewport)
    modifies s`depth, s`center, s`x, s`y, s`position
    ensures s.position.z == depth
    ensures s.scale == old(s.scale)
  {
    s.SetDepth(depth);
    s.SetPos(x, y, viewport);
  }
}
