/**
 * The export step of a save: the alpha channel built from the mask, the tight bounding box
 * of the mask's pixels, the box padded and clamped to the image as half-open slice limits,
 * the cropped alpha plane, and the path the cutout is written to.
 */
module Export {
  import opened Wrappers
  import opened Types
  import Files

  /** The mask has `h` rows of `w` pixels each. */
  predicate IsGrid(m: Mask, h: nat, w: nat) {
    |m| == h && forall r :: 0 <= r < h ==> |m[r]| == w
  }

  /** Pixel (r, c) exists in the mask and is selected. */
  predicate Marked(m: Mask, r: int, c: int) {
    0 <= r < |m| && 0 <= c < |m[r]| && m[r][c]
  }

  ghost predicate NoneMarked(m: Mask) {
    forall r, c :: !Marked(m, r, c)
  }

  /** A bounding box with inclusive limits, as the min and max of the selected indices. */
  datatype Box = Box(ymin: int, ymax: int, xmin: int, xmax: int)

  ghost predicate Encloses(b: Box, m: Mask) {
    forall r, c :: Marked(m, r, c) ==> b.ymin <= r <= b.ymax && b.xmin <= c <= b.xmax
  }

  /** The box encloses every selected pixel and each of its four limits is attained. */
  ghost predicate IsTightBox(b: Box, m: Mask) {
    && Encloses(b, m)
    && (exists c :: Marked(m, b.ymin, c))
    && (exists c :: Marked(m, b.ymax, c))
    && (exists r :: Marked(m, r, b.xmin))
    && (exists r :: Marked(m, r, b.xmax))
  }

  /** Two tight boxes of one mask are the same box: the tight box is the min/max of the indices. */
  lemma {:induction false} TightBoxUnique(m: Mask, a: Box, b: Box)
    requires IsTightBox(a, m) && IsTightBox(b, m)
    ensures a == b
  {
    var c1 :| Marked(m, a.ymin, c1);
    var c2 :| Marked(m, a.ymax, c2);
    var r1 :| Marked(m, r1, a.xmin);
    var r2 :| Marked(m, r2, a.xmax);
    var c3 :| Marked(m, b.ymin, c3);
    var c4 :| Marked(m, b.ymax, c4);
    var r3 :| Marked(m, r3, b.xmin);
    var r4 :| Marked(m, r4, b.xmax);
  }

  /** The first and last selected column of a row. */
  datatype Span = Span(lo: int, hi: int)

  function RowSpan(row: seq<bool>): (s: Option<Span>)
    ensures s.None? <==> forall c :: 0 <= c < |row| ==> !row[c]
    ensures s.Some? ==> 0 <= s.value.lo <= s.value.hi < |row| && row[s.value.lo] && row[s.value.hi]
    ensures s.Some? ==> forall c :: 0 <= c < |row| && row[c] ==> s.value.lo <= c <= s.value.hi
  {
    if row == [] then None
    else
      var last := |row| - 1;
      var init := RowSpan(row[..last]);
      assert forall c :: 0 <= c < last ==> row[..last][c] == row[c];
      if !row[last] then init
      else if init.None? then Some(Span(last, last))
      else Some(Span(init.value.lo, last))
  }


  /** The bounding box of the selected pixels, built row by row; None when nothing is selected. */
  function MaskBounds(m: Mask): Option<Box> {
    if m == [] then None
    else
      var last := |m| - 1;
      var init := MaskBounds(m[..last]);
      match RowSpan(m[last])
      case None => init
      case Some(sp) =>
        if init.None? then Some(Box(last, last, sp.lo, sp.hi))
        else Some(Box(init.value.ymin, last, Min(init.value.xmin, sp.lo), Max(init.value.xmax, sp.hi)))
  }

  /** MaskBounds finds no box exactly for a mask with nothing selected, and otherwise the tight box. */
  lemma {:induction false} MaskBoundsTight(m: Mask)
    ensures MaskBounds(m).None? <==> NoneMarked(m)
    ensures MaskBounds(m).Some? ==> IsTightBox(MaskBounds(m).value, m)
  {
    if m != [] {
      var last := |m| - 1;
      var pre := m[..last];
      MaskBoundsTight(pre);
      assert forall r, c :: 0 <= r < last ==> (Marked(pre, r, c) <==> Marked(m, r, c));
      var init := MaskBounds(pre);
      var sp := RowSpan(m[last]);
      assert forall c :: Marked(m, last, c) <==> 0 <= c < |m[last]| && m[last][c];
      if sp.Some? {
        assert Marked(m, last, sp.value.lo) && Marked(m, last, sp.value.hi);
        if init.Some? {
          var b := init.value;
          var c1 :| Marked(pre, b.ymin, c1);
          assert Marked(m, b.ymin, c1);
          var r1 :| Marked(pre, r1, b.xmin);
          assert Marked(m, r1, b.xmin);
          var r2 :| Marked(pre, r2, b.xmax);
          assert Marked(m, r2, b.xmax);
        }
      } else if init.Some? {
        var b := init.value;
        var c1 :| Marked(pre, b.ymin, c1);
        assert Marked(m, b.ymin, c1);
        var c2 :| Marked(pre, b.ymax, c2);
        assert Marked(m, b.ymax, c2);
        var r1 :| Marked(pre, r1, b.xmin);
        assert Marked(m, r1, b.xmin);
        var r2 :| Marked(pre, r2, b.xmax);
        assert Marked(m, r2, b.xmax);
      }
    }
  }

  /** Slice limits `[y0:y1, x0:x1]`: lower limits inclusive, upper limits exclusive. */
  datatype Slice = Slice(y0: int, y1: int, x0: int, x1: int)

  const Padding := 2

  /**
   * The box padded by 2 and clamped to an h-by-w image, used as half-open slice limits.
   * Because the upper limit is `max + 2` exclusive, the crop keeps up to 2 rows (columns)
   * before the box and only up to 1 after it.
   */
  function PaddedSlice(b: Box, h: int, w: int): (s: Slice)
    requires 0 <= b.ymin <= b.ymax < h && 0 <= b.xmin <= b.xmax < w
    ensures 0 <= s.y0 <= b.ymin && b.ymax < s.y1 <= h
    ensures 0 <= s.x0 <= b.xmin && b.xmax < s.x1 <= w
    ensures b.ymin - s.y0 == Min(2, b.ymin) && s.y1 - (b.ymax + 1) == Min(1, h - (b.ymax + 1))
    ensures b.xmin - s.x0 == Min(2, b.xmin) && s.x1 - (b.xmax + 1) == Min(1, w - (b.xmax + 1))
  {
    Slice(Max(0, b.ymin - Padding), Min(h, b.ymax + Padding), Max(0, b.xmin - Padding), Min(w, b.xmax + Padding))
  }

  /** The example of a 100x100 image selected in rows 10..20 and columns 30..40. */
  lemma PaddedSliceExample()
    ensures PaddedSlice(Box(10, 20, 30, 40), 100, 100) == Slice(8, 22, 28, 42)
  {
  }

  const Opaque := 255
  const Transparent := 0

  /** The alpha channel `mask * 255`: opaque where selected, transparent elsewhere. */
  function AlphaChannel(m: Mask): seq<seq<int>> {
    seq(|m|, r requires 0 <= r < |m| => seq(|m[r]|, c requires 0 <= c < |m[r]| => if m[r][c] then Opaque else Transparent))
  }

  /** Slicing `grid[y0:y1, x0:x1]` of a grid that is at least that large. */
  function Crop<T>(g: seq<seq<T>>, s: Slice): seq<seq<T>>
    requires 0 <= s.y0 <= s.y1 <= |g| && 0 <= s.x0 <= s.x1
    requires forall r :: s.y0 <= r < s.y1 ==> s.x1 <= |g[r]|
  {
    seq(s.y1 - s.y0, i requires 0 <= i < s.y1 - s.y0 => g[s.y0 + i][s.x0..s.x1])
  }

  /** What the cropped alpha plane holds: opaque exactly at the selected pixels of the slice. */
  ghost predicate IsAlphaCrop(a: seq<seq<int>>, m: Mask, s: Slice)
    requires 0 <= s.y0 <= s.y1 <= |m| && 0 <= s.x0 <= s.x1
    requires forall r :: s.y0 <= r < s.y1 ==> s.x1 <= |m[r]|
  {
    && |a| == s.y1 - s.y0
    && (forall i :: 0 <= i < |a| ==> |a[i]| == s.x1 - s.x0)
    && (forall i, j :: 0 <= i < |a| && 0 <= j < |a[i]| ==>
          a[i][j] == (if m[s.y0 + i][s.x0 + j] then Opaque else Transparent))
  }

  /** Why a save writes nothing. */
  datatype SaveError =
    | NotReady          // no mask yet, or no output directory chosen (reported on the status bar)
    | NoImage           // the current image could not be read: its shape is unavailable
    | ShapeMismatch     // the mask is not the size of the current image
    | EmptyMask         // the mask selects no pixel
    | IndexOutOfRange   // the current index does not name an entry of the image list
    | WriteFailed       // the encoded file could not be written

  /** A successful save: where the file goes, the crop limits, the cropped alpha plane, and
      whether the encoder produced a file (when it does not, nothing is written). */
  datatype Saved = Saved(path: string, region: Slice, alpha: seq<seq<int>>, written: bool)

  /**
   * The save of the current mask. `encodeOk` and `writeOk` are the outcomes of the PNG
   * encoder and of writing the file.
   */
  function PlanSave(mask: Option<Mask>, outputDir: Option<string>, image: Option<Image>,
                    imgList: seq<string>, imgIdx: int, sep: char, encodeOk: bool, writeOk: bool): (r: Result<Saved, SaveError>)
    // Each failure, in the order the save meets it.
    ensures r == Failure(NotReady) <==> mask.None? || outputDir.None?
    ensures r == Failure(NoImage) <==> mask.Some? && outputDir.Some? && image.None?
    ensures r == Failure(ShapeMismatch) <==>
              && mask.Some? && outputDir.Some? && image.Some?
              && !IsGrid(mask.value, image.value.h, image.value.w)
    ensures r == Failure(EmptyMask) <==>
              && mask.Some? && outputDir.Some? && image.Some?
              && IsGrid(mask.value, image.value.h, image.value.w)
              && NoneMarked(mask.value)
    ensures r == Failure(IndexOutOfRange) <==>
              && mask.Some? && outputDir.Some? && image.Some?
              && IsGrid(mask.value, image.value.h, image.value.w)
              && !NoneMarked(mask.value)
              && PyIndex(imgList, imgIdx).None?
    ensures r == Failure(WriteFailed) <==>
              && mask.Some? && outputDir.Some? && image.Some?
              && IsGrid(mask.value, image.value.h, image.value.w)
              && !NoneMarked(mask.value)
              && PyIndex(imgList, imgIdx).Some?
              && encodeOk && !writeOk
    ensures r.Success? <==>
              && mask.Some? && outputDir.Some? && image.Some?
              && IsGrid(mask.value, image.value.h, image.value.w)
              && !NoneMarked(mask.value)
              && PyIndex(imgList, imgIdx).Some?
              && (encodeOk ==> writeOk)
    // On success: the file name, the crop of the padded tight box, and its alpha plane.
    ensures r.Success? ==>
              && mask.Some? && outputDir.Some? && image.Some?
              && PyIndex(imgList, imgIdx).Some?
              && r.value.path == Files.Join(outputDir.value, Files.OutputName(PyIndex(imgList, imgIdx).value, sep), sep)
              && r.value.written == encodeOk
    ensures r.Success? ==>
              && mask.Some? && image.Some?
              && MaskBounds(mask.value).Some?
              && IsTightBox(MaskBounds(mask.value).value, mask.value)
              && var b := MaskBounds(mask.value).value;
                 && 0 <= b.ymin <= b.ymax < image.value.h && 0 <= b.xmin <= b.xmax < image.value.w
                 && r.value.region == PaddedSlice(b, image.value.h, image.value.w)
    ensures r.Success? ==>
              var m := mask.value;
              var s := r.value.region;
              && IsGrid(m, image.value.h, image.value.w)
              && 0 <= s.y0 < s.y1 <= image.value.h && 0 <= s.x0 < s.x1 <= image.value.w
              && (forall y, x :: Marked(m, y, x) ==> s.y0 <= y < s.y1 && s.x0 <= x < s.x1)
              && IsAlphaCrop(r.value.alpha, m, s)
  {
    if mask.None? || outputDir.None? then Failure(NotReady)
    else if image.None? then Failure(NoImage)
    else
      var m := mask.value;
      var h := image.value.h;
      var w := image.value.w;
      if !IsGrid(m, h, w) then Failure(ShapeMismatch)
      else
        MaskBoundsTight(m);
        match MaskBounds(m)
        case None => Failure(EmptyMask)
        case Some(b) =>
          BoxInImage(m, b, h, w);
          var s := PaddedSlice(b, h, w);
          var alpha := Crop(AlphaChannel(m), s);
          CropOfAlpha(m, s);
          match PyIndex(imgList, imgIdx)
          case None => Failure(IndexOutOfRange)
          case Some(source) =>
            var path := Files.Join(outputDir.value, Files.OutputName(source, sep), sep);
            if encodeOk && !writeOk then Failure(WriteFailed)
            else Success(Saved(path, s, alpha, encodeOk))
  }

  /** A tight box of an h-by-w mask lies inside the image. */
  lemma BoxInImage(m: Mask, b: Box, h: nat, w: nat)
    requires IsGrid(m, h, w) && IsTightBox(b, m)
    ensures 0 <= b.ymin <= b.ymax < h && 0 <= b.xmin <= b.xmax < w
  {
    var c1 :| Marked(m, b.ymin, c1);
    var c2 :| Marked(m, b.ymax, c2);
    var r1 :| Marked(m, r1, b.xmin);
    var r2 :| Marked(m, r2, b.xmax);
  }

  /** Cropping the alpha channel gives the alpha of the cropped pixels. */
  lemma CropOfAlpha(m: Mask, s: Slice)
    requires 0 <= s.y0 <= s.y1 <= |m| && 0 <= s.x0 <= s.x1
    requires forall r :: s.y0 <= r < s.y1 ==> s.x1 <= |m[r]|
    ensures IsAlphaCrop(Crop(AlphaChannel(m), s), m, s)
  {
  }
}
