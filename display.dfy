/**
 * The integer arithmetic of the preview: the target size of the scaled picture, the
 * offsets that centre it in the label, the brush cursor size and the marker colours.
 */
module Display {
  import opened Wrappers
  import opened Types
  import opened UI

  /** The scaled size `int(dim * zoom)` of one image dimension. */
  function TargetSize(dim: nat, zoom: ZoomPercent): (r: nat)
    ensures r * 100 <= dim * zoom < (r + 1) * 100
    ensures zoom == 100 ==> r == dim
  {
    dim * zoom / 100
  }

  /** The offset `(labelDim - pixDim) // 2` that centres a picture; negative when it overflows. */
  function CentreOffset(labelDim: int, pixDim: int): (r: int)
    ensures 2 * r + pixDim <= labelDim <= 2 * r + pixDim + 1
  {
    (labelDim - pixDim) / 2
  }

  /** The geometry the label holds after the preview is redrawn at the given zoom. */
  function Layout(labelW: int, labelH: int, pixmap: Pixmap, zoom: ZoomPercent): (g: Geometry)
    ensures g.scale == zoom
    ensures 2 * g.offsetX + pixmap.width <= labelW <= 2 * g.offsetX + pixmap.width + 1
    ensures 2 * g.offsetY + pixmap.height <= labelH <= 2 * g.offsetY + pixmap.height + 1
  {
    Geometry(zoom, CentreOffset(labelW, pixmap.width), CentreOffset(labelH, pixmap.height))
  }

  /**
   * After a redraw, with the picture no larger than the image scaled by the zoom: the
   * centred picture lies inside a label that is large enough for it, and every press the
   * label accepts maps to a pixel of the image or to the column (row) just past it.
   */
  lemma {:induction false} RedrawnPressInImage(labelW: int, labelH: int, img: Image, pixmap: Pixmap, zoom: ZoomPercent,
                                               lx: int, ly: int, button: MouseButton)
    requires pixmap.width * 100 <= img.w * zoom && pixmap.height * 100 <= img.h * zoom
    ensures var g := Layout(labelW, labelH, pixmap, zoom);
            && (pixmap.width <= labelW ==> 0 <= g.offsetX && g.offsetX + pixmap.width <= labelW)
            && (pixmap.height <= labelH ==> 0 <= g.offsetY && g.offsetY + pixmap.height <= labelH)
            && var r := MousePress(g, Some(pixmap), lx, ly, button);
               r.Some? ==> 0 <= r.value.x <= img.w && 0 <= r.value.y <= img.h
  {
    var g := Layout(labelW, labelH, pixmap, zoom);
    var r := MousePress(g, Some(pixmap), lx, ly, button);
    if r.Some? {
      UnscaledWithin(r.value.x, pixmap.width, img.w, zoom);
      UnscaledWithin(r.value.y, pixmap.height, img.h, zoom);
    }
  }

  /** A coordinate unscaled from a picture no larger than `dim` scaled by the zoom stays within `dim`. */
  lemma UnscaledWithin(x: int, pix: nat, dim: nat, zoom: ZoomPercent)
    requires x * zoom <= pix * 100 && pix * 100 <= dim * zoom
    ensures x <= dim
  {
    if x > dim {
      MulMonotoneLe(dim + 1, x, zoom);
    }
  }

  /** The scaled picture `pixmap.scaled(TargetSize(w), TargetSize(h))` is no larger than the image scaled by the zoom. */
  lemma TargetSizeFits(dim: nat, zoom: ZoomPercent, pix: nat)
    requires pix <= TargetSize(dim, zoom)
    ensures pix * 100 <= dim * zoom
  {
    MulMonotoneLe(pix, TargetSize(dim, zoom), 100);
  }

  /** The brush cursor: a square pixmap of `size` pixels with its hot spot at `hotspot`. */
  datatype Cursor = Cursor(size: int, hotspot: int)

  const CursorMinSize := 8
  const CursorMaxSize := 128

  /**
   * The cursor for a brush radius at a zoom: twice the on-screen radius plus 2, clamped to
   * [8, 128], with the hot spot in the middle.
   */
  function BrushCursor(brush: BrushRadius, zoom: ZoomPercent): (c: Cursor)
    ensures CursorMinSize <= c.size <= CursorMaxSize
    ensures 4 <= c.hotspot <= 64
    ensures 2 * c.hotspot <= c.size <= 2 * c.hotspot + 1
    ensures var radius := brush * zoom / 100;
            3 <= radius <= 63 ==> c.size == 2 * radius + 2
    ensures brush * zoom < 300 ==> c.size == CursorMinSize
    ensures brush * zoom >= 6400 ==> c.size == CursorMaxSize
  {
    var radius := brush * zoom / 100;
    var size := Max(CursorMinSize, Min(radius * 2 + 2, CursorMaxSize));
    Cursor(size, size / 2)
  }


  /** A BGR colour triple. */
  datatype Colour = Colour(b: int, g: int, r: int)

  const Green := Colour(0, 255, 0)
  const Red := Colour(0, 0, 255)

  /** Markers of foreground points are green, of every other label red. */
  function MarkerColour(lbl: int): (c: Colour)
    ensures c == Green <==> lbl == ForegroundLabel
    ensures c == Red <==> lbl != ForegroundLabel
  {
    if lbl == ForegroundLabel then Green else Red
  }

  /** A left click leaves a green marker and any other button a red one. */
  lemma MarkerOfClick(isLeft: bool)
    ensures MarkerColour(LabelFor(isLeft)) == (if isLeft then Green else Red)
  {
  }
}
