/**
 * The image label of the main window: the ranges of the zoom slider and brush spin box,
 * and the mapping of a mouse press on the label to original-image pixel coordinates.
 */
module UI {
  import opened Wrappers

  /** The zoom slider runs from 10% to 500% and starts at 100%. */
  const ZoomMin := 10
  const ZoomMax := 500
  const ZoomDefault := 100

  /** The brush radius spin box runs from 1 to 50 and starts at 5. */
  const BrushMin := 1
  const BrushMax := 50
  const BrushDefault := 5

  /** A zoom factor, as the integer percent the slider delivers (scale = percent / 100). */
  type ZoomPercent = p: int | ZoomMin <= p <= ZoomMax witness ZoomDefault

  /** A marker radius in original-image pixels. */
  type BrushRadius = b: int | BrushMin <= b <= BrushMax witness BrushDefault

  datatype MouseButton = LeftButton | RightButton | MiddleButton | OtherButton

  /** The size of the pixmap shown by the label. */
  datatype Pixmap = Pixmap(width: nat, height: nat)

  /** What the label knows about the picture it shows: the scale and the centring offsets. */
  datatype Geometry = Geometry(scale: ZoomPercent, offsetX: int, offsetY: int)

  /** The signal a press emits: original-image coordinates and whether it was the left button. */
  datatype Click = Click(x: int, y: int, isLeft: bool)

  /** A freshly constructed label: scale 1.0 and no offset. */
  const InitialGeometry := Geometry(100, 0, 0)

  /** A pixmap of zero width or height is a null pixmap, which tests false. */
  predicate IsShown(pixmap: Option<Pixmap>) {
    pixmap.Some? && pixmap.value.width > 0 && pixmap.value.height > 0
  }

  /** The hit test: both coordinates within the pixmap rectangle, both ends inclusive. */
  predicate OnPixmap(g: Geometry, p: Pixmap, lx: int, ly: int) {
    g.offsetX <= lx <= g.offsetX + p.width && g.offsetY <= ly <= g.offsetY + p.height
  }

  /** Truncating division of a non-negative label distance by the scale (percent / 100). */
  function Unscale(d: nat, scale: ZoomPercent): (r: nat)
    ensures r * scale <= d * 100 < (r + 1) * scale
  {
    DivBracket(d * 100, scale);
    d * 100 / scale
  }

  lemma DivBracket(n: nat, k: int)
    requires k > 0
    ensures (n / k) * k <= n < (n / k + 1) * k
  {
  }

  /**
   * A mouse press at label coordinates (lx, ly). With no picture shown, or outside the
   * picture, nothing is emitted; otherwise the press is mapped back to the original image.
   */
  function MousePress(g: Geometry, pixmap: Option<Pixmap>, lx: int, ly: int, button: MouseButton): (r: Option<Click>)
    ensures r.Some? <==> IsShown(pixmap) && OnPixmap(g, pixmap.value, lx, ly)
    ensures r.Some? ==> (r.value.isLeft <==> button == LeftButton)
    ensures r.Some? ==> 0 <= r.value.x && 0 <= r.value.y
    ensures r.Some? ==> r.value.x * g.scale <= (lx - g.offsetX) * 100 < (r.value.x + 1) * g.scale
    ensures r.Some? ==> r.value.y * g.scale <= (ly - g.offsetY) * 100 < (r.value.y + 1) * g.scale
    ensures r.Some? ==> r.value.x * g.scale <= pixmap.value.width * 100
    ensures r.Some? ==> r.value.y * g.scale <= pixmap.value.height * 100
  {
    if IsShown(pixmap) && OnPixmap(g, pixmap.value, lx, ly) then
      Some(Click(Unscale(lx - g.offsetX, g.scale), Unscale(ly - g.offsetY, g.scale), button == LeftButton))
    else
      None
  }

  /**
   * Mapping an accepted press back by the scale and the offset lands within one source
   * pixel of the press: x * scale + offsetX <= lx < (x + 1) * scale + offsetX.
   */
  lemma PressRoundTrip(g: Geometry, pixmap: Option<Pixmap>, lx: int, ly: int, button: MouseButton)
    requires MousePress(g, pixmap, lx, ly, button).Some?
    ensures var c := MousePress(g, pixmap, lx, ly, button).value;
            var s := g.scale as real / 100.0;
            && (c.x as real) * s + g.offsetX as real <= lx as real < ((c.x + 1) as real) * s + g.offsetX as real
            && (c.y as real) * s + g.offsetY as real <= ly as real < ((c.y + 1) as real) * s + g.offsetY as real
  {
    var c := MousePress(g, pixmap, lx, ly, button).value;
    ScaleBack(c.x, lx - g.offsetX, g.scale);
    ScaleBack(c.y, ly - g.offsetY, g.scale);
  }

  lemma ScaleBack(x: int, d: int, p: int)
    requires p > 0 && x * p <= d * 100 < (x + 1) * p
    ensures (x as real) * (p as real / 100.0) <= d as real < ((x + 1) as real) * (p as real / 100.0)
  {
    assert (x * p) as real == (x as real) * (p as real);
    assert ((x + 1) * p) as real == ((x + 1) as real) * (p as real);
  }

  /** With the label's initial geometry every accepted press maps to itself. */
  lemma InitialGeometryIsIdentity(pixmap: Option<Pixmap>, lx: int, ly: int, button: MouseButton)
    requires MousePress(InitialGeometry, pixmap, lx, ly, button).Some?
    ensures MousePress(InitialGeometry, pixmap, lx, ly, button).value == Click(lx, ly, button == LeftButton)
  {
  }

  /**
   * The right and bottom edges are inclusive. When the picture is the image scaled exactly
   * (width = w * scale), a press on the column just past the picture is still accepted and
   * maps to column `w` of a `w`-column image, one past its last column.
   */
  lemma {:induction false} RightEdgePressMapsPastImage(g: Geometry, pixmap: Pixmap, w: nat, ly: int, button: MouseButton)
    requires pixmap.width > 0 && pixmap.height > 0 && pixmap.width * 100 == w * g.scale
    requires g.offsetY <= ly <= g.offsetY + pixmap.height
    ensures var r := MousePress(g, Some(pixmap), g.offsetX + pixmap.width, ly, button);
            r.Some? && r.value.x == w
  {
    var x := MousePress(g, Some(pixmap), g.offsetX + pixmap.width, ly, button).value.x;
    assert x * g.scale <= w * g.scale < (x + 1) * g.scale;
    if x < w {
      MulMonotoneLe(x + 1, w, g.scale);
    }
    if x > w {
      MulMonotoneLe(w + 1, x, g.scale);
    }
  }

  /** Multiplying both sides of a <= b by a positive factor. */
  lemma MulMonotoneLe(a: int, b: int, k: int)
    requires k > 0 && a <= b
    ensures a * k <= b * k
  {
    assert b * k - a * k == (b - a) * k;
  }

  /** Cancelling a positive factor from a strict product inequality. */
  lemma MulMonotone(a: int, b: int, k: int)
    requires k > 0 && a * k < b * k
    ensures a < b
  {
    if a >= b {
      MulMonotoneLe(b, a, k);
    }
  }

  /** The hit test with the right and bottom edges excluded, as a pixel rectangle is. */
  predicate OnPixmapHalfOpen(g: Geometry, p: Pixmap, lx: int, ly: int) {
    g.offsetX <= lx < g.offsetX + p.width && g.offsetY <= ly < g.offsetY + p.height
  }

  /** The press mapping with the half-open hit test; otherwise identical to MousePress. */
  function MousePressHalfOpen(g: Geometry, pixmap: Option<Pixmap>, lx: int, ly: int, button: MouseButton): (r: Option<Click>)
    ensures r.Some? <==> IsShown(pixmap) && OnPixmapHalfOpen(g, pixmap.value, lx, ly)
    ensures r.Some? ==> r == MousePress(g, pixmap, lx, ly, button)
  {
    if IsShown(pixmap) && OnPixmapHalfOpen(g, pixmap.value, lx, ly) then
      MousePress(g, pixmap, lx, ly, button)
    else
      None
  }

  /**
   * With the half-open hit test, a pixmap no larger than the image scaled by the zoom
   * (width <= w * scale, height <= h * scale) only ever yields pixels inside the image.
   */
  lemma {:induction false} HalfOpenPressStaysInImage(g: Geometry, w: nat, h: nat, pixmap: Pixmap, lx: int, ly: int, button: MouseButton)
    requires pixmap.width * 100 <= w * g.scale && pixmap.height * 100 <= h * g.scale
    requires MousePressHalfOpen(g, Some(pixmap), lx, ly, button).Some?
    ensures var c := MousePressHalfOpen(g, Some(pixmap), lx, ly, button).value;
            0 <= c.x < w && 0 <= c.y < h
  {
    var c := MousePressHalfOpen(g, Some(pixmap), lx, ly, button).value;
    assert (lx - g.offsetX + 1) * 100 <= pixmap.width * 100;
    assert c.x * g.scale < w * g.scale;
    MulMonotone(c.x, w, g.scale);
    assert (ly - g.offsetY + 1) * 100 <= pixmap.height * 100;
    assert c.y * g.scale < h * g.scale;
    MulMonotone(c.y, h, g.scale);
  }
}
