/** Values shared by the annotation session, the exporter and the segmentation worker. */
module Types {
  import opened Wrappers

  /** A prompt point in original-image pixel coordinates (main.py stores it as `[x, y]`). */
  datatype Point = Point(x: int, y: int)

  /** An image, modelled only by its shape: `h` rows of `w` pixels. Pixel data is not modelled. */
  datatype Image = Image(h: nat, w: nat)

  /** A segmentation mask: one row of booleans per image row, `true` = selected. */
  type Mask = seq<seq<bool>>

  /** Prompt labels as the session records them: 1 for foreground, 0 for background. */
  const ForegroundLabel := 1
  const BackgroundLabel := 0

  predicate IsLabel(l: int) {
    l == ForegroundLabel || l == BackgroundLabel
  }

  /** The label recorded for a click: foreground exactly for the left button. */
  function LabelFor(isLeft: bool): (l: int)
    ensures IsLabel(l)
    ensures l == ForegroundLabel <==> isLeft
    ensures l == BackgroundLabel <==> !isLeft
  {
    if isLeft then ForegroundLabel else BackgroundLabel
  }

  function Min(a: int, b: int): int { if a <= b then a else b }
  function Max(a: int, b: int): int { if a >= b then a else b }

  /** Python list indexing `s[i]`: negative indices count from the end; anything else raises. */
  function PyIndex<T>(s: seq<T>, i: int): (r: Option<T>)
    ensures r.Some? <==> -|s| <= i < |s|
    ensures 0 <= i < |s| ==> r == Some(s[i])
    ensures -|s| <= i < 0 ==> r == Some(s[|s| + i])
  {
    if 0 <= i < |s| then Some(s[i])
    else if -|s| <= i < 0 then Some(s[|s| + i])
    else None
  }
}
