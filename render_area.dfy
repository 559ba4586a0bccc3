/**
 * The aspect-preserving placement of a transfer image inside the window:
 * the rectangle the fragment shader draws into, and the viewport and
 * scissor set from it. The source computes in `double` and rounds with
 * `std::round`; the model computes the same values with exact integers.
 */
module RenderArea {
  import opened Wrappers
  import opened VkTypes

  /** `render_area`: offset and size in pixels; also the shape of `vk::Rect2D`. */
  datatype Rect = Rect(x: nat, y: nat, width: nat, height: nat)

  datatype Viewport = Viewport(x: nat, y: nat, width: nat, height: nat, minDepth: nat, maxDepth: nat)

  /** What one update writes: the render area, the viewport and the scissor. */
  datatype RenderTargets = RenderTargets(area: Rect, viewport: Viewport, scissor: Rect)

  /** `std::round(p / q)` for non-negative `p` and positive `q`: halves round up. */
  function RoundDiv(p: nat, q: nat): (r: nat)
    requires q > 0
    ensures 2 * q * r <= 2 * p + q < 2 * q * r + 2 * q
  {
    var t, d := 2 * p + q, 2 * q;
    assert d * (t / d) + t % d == t;
    t / d
  }

  /** `wnd_aspect > img_aspect`, cross-multiplied so that no division is needed. */
  predicate WindowWiderThanImage(window: Extent2D, image: Extent2D)
  {
    window.width * image.height > image.width * window.height
  }

  predicate Inside(area: Rect, window: Extent2D)
  {
    area.x + area.width <= window.width && area.y + area.height <= window.height
  }

  /** The drawn rectangle has the image's proportions up to rounding by half a pixel. */
  predicate KeepsAspect(area: Rect, image: Extent2D)
  {
    var skew := area.width * image.height - area.height * image.width;
    2 * skew <= Max(image.width, image.height) && -2 * skew <= Max(image.width, image.height)
  }

  /** The unused margins on the two sides differ by at most one pixel. */
  predicate Centred(area: Rect, window: Extent2D)
    requires Inside(area, window)
  {
    var right := window.width - area.x - area.width;
    var bottom := window.height - area.y - area.height;
    area.x <= right <= area.x + 1 && area.y <= bottom <= area.y + 1
  }

  function ViewportOf(area: Rect): Viewport
  {
    Viewport(area.x, area.y, area.width, area.height, 0, 1)
  }

  /**
   * `update_render_area_viewport_scissor`. A zero window or image dimension
   * makes the source divide by zero in floating point; the model yields None.
   */
  function UpdateRenderArea(window: Extent2D, image: Extent2D): (r: Option<RenderTargets>)
    ensures r.None? <==> window.width == 0 || window.height == 0 || image.width == 0 || image.height == 0
    ensures r.Some? ==>
      var a := r.value.area;
      && Inside(a, window)
      && Centred(a, window)
      && KeepsAspect(a, image)
      && (if WindowWiderThanImage(window, image) then a.height == window.height && a.y == 0
          else a.width == window.width && a.x == 0)
      && r.value.viewport == ViewportOf(a)
      && r.value.scissor == a
  {
    if window.width == 0 || window.height == 0 || image.width == 0 || image.height == 0 then None
    else
      var area := if WindowWiderThanImage(window, image) then FitHeight(window, image) else FitWidth(window, image);
      Some(RenderTargets(area, ViewportOf(area), area))
  }

  /** The window is wider than the image: full height, rounded width, centred horizontally. */
  function FitHeight(window: Extent2D, image: Extent2D): (area: Rect)
    requires image.height > 0 && WindowWiderThanImage(window, image)
    ensures area.width <= window.width && KeepsAspect(area, image)
  {
    var w := RoundDiv(window.height * image.width, image.height);
    FitHeightBound(window, image, w);
    Rect((window.width - w) / 2, 0, w, window.height)
  }

  /** The window is not wider than the image: full width, rounded height, centred vertically. */
  function FitWidth(window: Extent2D, image: Extent2D): (area: Rect)
    requires image.width > 0 && !WindowWiderThanImage(window, image)
    ensures area.height <= window.height && KeepsAspect(area, image)
  {
    var h := RoundDiv(window.width * image.height, image.width);
    FitWidthBound(window, image, h);
    Rect(0, (window.height - h) / 2, window.width, h)
  }

  /** Multiplication by a natural number is monotonic. */
  lemma MulMonotonic(k: nat, y: int, z: int)
    requires y <= z
    ensures k * y <= k * z
  {
    assert k * z - k * y == k * (z - y);
  }

  /** Rounding `window.height * image.width / image.height` gives a width that fits and keeps the aspect. */
  lemma FitHeightBound(window: Extent2D, image: Extent2D, w: nat)
    requires image.height > 0 && WindowWiderThanImage(window, image)
    requires 2 * image.height * w <= 2 * (window.height * image.width) + image.height
                                  < 2 * image.height * w + 2 * image.height
    ensures w <= window.width
    ensures KeepsAspect(Rect(0, 0, w, window.height), image)
  {
    var d, bc, da := image.height, window.height * image.width, window.width * image.height;
    assert w * d == d * w;
    assert window.height * image.width == image.width * window.height;
    if w > window.width {
      MulMonotonic(d, window.width + 1, w);
      assert false;
    }
  }

  /** Rounding `window.width * image.height / image.width` gives a height that fits and keeps the aspect. */
  lemma FitWidthBound(window: Extent2D, image: Extent2D, h: nat)
    requires image.width > 0 && !WindowWiderThanImage(window, image)
    requires 2 * image.width * h <= 2 * (window.width * image.height) + image.width
                                 < 2 * image.width * h + 2 * image.width
    ensures h <= window.height
    ensures KeepsAspect(Rect(0, 0, window.width, h), image)
  {
    var c := image.width;
    assert h * c == c * h;
    if h > window.height {
      MulMonotonic(c, window.height + 1, h);
      assert false;
    }
  }

  /** Rounding an exact quotient gives the quotient itself. */
  lemma RoundDivExact(p: nat, q: nat, k: nat)
    requires q > 0 && p == q * k
    ensures RoundDiv(p, q) == k
  {
    var r := RoundDiv(p, q);
    assert 2 * p + q == q * (2 * k + 1);
    if r < k {
      MulMonotonic(q, 2 * r + 2, 2 * k);
      assert false;
    } else if r > k {
      MulMonotonic(q, 2 * k + 2, 2 * r);
      assert false;
    }
  }

  /** A window with exactly the image's proportions is filled completely. */
  lemma SameAspectFillsWindow(window: Extent2D, image: Extent2D)
    requires window.width > 0 && window.height > 0 && image.width > 0 && image.height > 0
    requires window.width * image.height == image.width * window.height
    ensures UpdateRenderArea(window, image).value.area == Rect(0, 0, window.width, window.height)
  {
    RoundDivExact(window.width * image.height, image.width, window.height);
  }

  /** A 640x480 image in a 1920x1080 window is pillar-boxed at x = 240. */
  lemma PillarBoxExample()
    ensures UpdateRenderArea(Extent2D(1920, 1080), Extent2D(640, 480)).value.area == Rect(240, 0, 1440, 1080)
  {
  }
}
