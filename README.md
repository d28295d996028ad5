# RailFoD cutout tool: a Dafny model of its core

The tool is a point-click cutout annotator. The user clicks foreground (left button) and
background (other buttons) points on a zoomed, centred preview of an image. A segmentation
worker turns the accumulated prompts into a mask. A save exports a padded, alpha-matted crop
of the mask's bounding box and skips to the next image.

This project models the logic of that loop:

- `ui.dfy` (module `UI`): the image label. It holds the zoom and brush ranges (as the subset
  types `ZoomPercent` and `BrushRadius`), the hit test and the mapping of a press back to image
  pixels (`MousePress`). The zoom is an exact integer percent, so `int((lx - off) / scale)`
  becomes `(lx - off) * 100 div p`.
- `display.dfy` (module `Display`): the preview arithmetic of the main window. It covers the
  target size `int(w * zoom)`, the centring offsets `(label - pixmap) // 2`, the brush cursor
  clamp and the marker colours.
- `files.dfy` (module `Files`): the import filter by extension, `os.path.join`,
  `os.path.basename` with one separator character given as a parameter, and the exported file
  name.
- `export.dfy` (module `Export`): the pure part of a save. It computes the tight bounding box
  of the mask, pads it and clamps it to half-open slice limits, crops the alpha plane and
  builds the output path, all in `PlanSave` with every error path.
- `worker.dfy` (module `SamWorker`): the worker's single pending slot (class `WorkerThread`).
  Each of the three task methods overwrites it. `RunStep` is one run over the slot, with the
  segmentation model given as an `Oracle` value.
- `tool.dfy` (module `Tool`): the annotation session of `RailFoDTool`. Each handler is a pure
  transition on a `Session` value that also names the task it hands to the worker. The class
  `RailFoDTool` performs the same steps on its fields and the worker's, and each method's
  `ensures` ties the new fields and slot to that transition.

Three behaviours of the code shape the model:

- The crop keeps up to 2 rows and columns before the box but only up to 1 after it. The upper
  slice limit is `min(h, ymax + 2)`, and it is exclusive. So a mask covering rows 10..20 of a
  100-row image is cropped to rows 8..21 (`PaddedSlice`, `PaddedSliceExample`).
- There is no readiness flag and no generation id. A prediction runs whenever a predictor
  exists and points are pending. A mask that arrives is stored whatever image it was computed
  for (`RunStep`, `ReceiveMask`).
- An import that finds no image empties the image list but keeps the index, the image, the
  prompts and the mask. A later save of that mask then fails on the index lookup
  (`SaveAfterEmptyImportFails`).

The tool's click handler (`Click`, `RailFoDTool.OnClick`) receives coordinates that are
already mapped. No other member uses the press mapping.

## Model

| member | source | states |
|---|---|---|
| `UI.MousePress` | UI.py:20-33 | A press yields a click exactly when a non-null pixmap is shown and the press lies in the pixmap rectangle with both ends inclusive. `isLeft` holds iff the button is the left one. The mapped coordinates are non-negative and obey the floor bracket `x*p <= (lx-off)*100 < (x+1)*p`. They are bounded by `x*p <= width*100`. |
| `UI.PressRoundTrip` | UI.py:29-30 | Mapping an accepted press back by the scale and the offset lands within one source pixel of the press: `x*s + off <= lx < (x+1)*s + off`. |
| `UI.InitialGeometryIsIdentity` | UI.py:13-17 | With the label's initial scale 1.0 and zero offsets, every accepted press maps to itself. |
| `UI.RightEdgePressMapsPastImage` | UI.py:26-29 | When the pixmap is the image scaled exactly, a press on the column just past the picture is accepted and maps to column `w`, one past the last column of the image. |
| `UI.MousePressHalfOpen` | UI.py:26-30 | The press mapping with a half-open hit test. It accepts exactly the presses strictly inside the right and bottom edges, and agrees with `MousePress` on them. |
| `UI.HalfOpenPressStaysInImage` | UI.py:26-30 | With the half-open hit test and a pixmap no larger than the scaled image, every mapped point lies inside the image. |
| `Display.TargetSize` | main.py:124-125 | The scaled size is the floor of `dim * zoom / 100`. It equals `dim` at 100%. |
| `Display.CentreOffset` | main.py:138-139 | The offset centres the picture, rounding down: `2*off + pix <= label <= 2*off + pix + 1`. |
| `Display.Layout` | main.py:133-139 | After a redraw the label's scale is the zoom and both offsets centre the shown pixmap. |
| `Display.RedrawnPressInImage` | main.py:124-139 | After a redraw with the picture no larger than the image scaled by the zoom (which `TargetSizeFits` shows of any picture within the target size), the centred picture lies inside any label large enough for it. Every press the label then accepts maps to `0 <= x <= w`, `0 <= y <= h`. |
| `Display.BrushCursor` | main.py:194-198 | The cursor size always lies in [8, 128] and the hot spot in [4, 64], at the centre. The size is `2*radius + 2` when the on-screen radius is 3..63. It is 8 below and 128 above those radii. |
| `Display.MarkerOfClick` | main.py:115 | A left click's marker is green (BGR 0,255,0). Any other click's marker is red (0,0,255). |
| `Types.LabelFor` | main.py:91 | The recorded label is 1 exactly for a left click and 0 otherwise. |
| `Files.ImageNames` | main.py:57-58 | The import keeps a name iff its ASCII-lower-cased form ends in .jpg, .jpeg or .png. It never keeps more names than the listing has. |
| `Files.ImageNamesAppend` | main.py:57-58 | The filter commutes with concatenation of listings, so it keeps names in listing order. |
| `Files.ImageNamesSingle` | main.py:57-58 | A one-entry listing keeps its entry exactly when it is an image name. |
| `Files.ImageNamesExample` | main.py:57-58 | The listing `a.JPG, notes.txt, b.png` imports `a.JPG, b.png`, in that order. |
| `Files.Paths` | main.py:57 | Each kept entry is joined to the chosen directory, one path per entry, in order. |
| `Files.BaseName` | main.py:161 | The base name is the suffix of the path after its last separator. It contains no separator. |
| `Files.BaseNameOfJoin` | main.py:161 | The base name of a directory joined with an entry name is that entry name. |
| `Files.Stem` | main.py:161 | The stem is the prefix of the name before its first dot. It contains no dot. |
| `Files.OutputName` | main.py:161 | The exported name ends in `.png`. What precedes that is the base name up to its first dot, with no dot and no separator in it. |
| `Files.OutputNameOfImport` | main.py:161 | An imported image is exported as its entry name's stem followed by `.png`. |
| `Export.RowSpan` | main.py:152-155 | A row has no span iff it has no selected pixel. Otherwise the span is its first and last selected column. |
| `Export.MaskBoundsTight` | main.py:152-155 | The bounds are absent iff the mask selects nothing. Otherwise they form the tight box: it encloses every selected pixel and each of its four limits is attained. |
| `Export.TightBoxUnique` | main.py:154-155 | A mask has only one tight box, which is the min and max of the selected row and column indices. |
| `Export.PaddedSlice` | main.py:156-158 | `0 <= y0 <= ymin`, `ymax < y1 <= h`, and the same for x, so the half-open crop contains the box and stays in the image. The padding is `min(2, room)` before the box and `min(1, room)` after it. |
| `Export.PaddedSliceExample` | main.py:157-158 | Rows 10..20 and columns 30..40 of a 100x100 image give slice limits `[8:22, 28:42]`. |
| `Export.CropOfAlpha` | main.py:147-159 | The cropped alpha plane has the slice's size and is 255 exactly at the selected pixels of the slice, 0 elsewhere. |
| `Export.PlanSave` | main.py:141-169 | Each failure holds exactly under its condition, in the code's order: no mask or no output directory gives `NotReady`; a missing image `NoImage`; a mask not of the image's shape `ShapeMismatch`; a mask selecting nothing `EmptyMask`; an index outside the list `IndexOutOfRange`; an encoded file that cannot be written `WriteFailed`. Otherwise the save succeeds. The crop is `PaddedSlice` of the mask's tight box, so it lies in the image and contains every selected pixel. The alpha plane is 255 exactly where the mask is. The path is the output directory joined with the source's stem plus `.png`, and the file is written iff encoding succeeded. |
| `SamWorker.Submit` | SAMpredictor.py:23-36 | After a task method the pending task type is that method's. `set_image_task` overwrites only the image. `predict_task` overwrites only the points and labels. `load_model_task` overwrites no input. |
| `SamWorker.LastRequestWins` | SAMpredictor.py:23-36 | After any run of task calls, the pending task is the last call's and the pending image is the last one handed to `set_image_task`. |
| `SamWorker.ArgMax` | SAMpredictor.py:61 | The chosen index holds the maximum score, and every earlier score is strictly smaller (first-occurrence tie-break). |
| `SamWorker.ArgMaxExample` | SAMpredictor.py:61 | Of scores 0.2, 0.9 and 0.5 the second candidate is chosen. |
| `SamWorker.RunStep` | SAMpredictor.py:38-64 | Only a successful load installs a predictor and emits `model_loaded`. A load reports loading then ready, or loading then an error. An open set-image gate reports features ready, or an error when extraction fails. No task, or a closed set-image or predict gate (no predictor, no image, no points), emits nothing. A prediction with no answer or no candidate reports an error. A mask is emitted only alone, only from an open predict gate, and it is the first best-scored candidate. Every non-empty answer yields one. An error status comes last and only status messages accompany it. |
| `SamWorker.WorkerThread.constructor` | SAMpredictor.py:11-21 | A new worker has no predictor and an empty slot. |
| `SamWorker.WorkerThread.LoadModelTask` | SAMpredictor.py:23-25 | The slot becomes `Submit(old slot, load)`. The predictor is untouched. |
| `SamWorker.WorkerThread.SetImageTask` | SAMpredictor.py:27-30 | The slot becomes `Submit(old slot, set_image(img))`. The predictor is untouched. |
| `SamWorker.WorkerThread.PredictTask` | SAMpredictor.py:32-36 | The slot becomes `Submit(old slot, predict(points, labels))`, holding value copies of the caller's sequences. The predictor is untouched. |
| `SamWorker.WorkerThread.Run` | SAMpredictor.py:38-64 | The run emits `RunStep`'s events and leaves the predictor as `RunStep` says. The slot is not consumed. |
| `Tool.Click` | main.py:89-92 | Exactly one point `(x, y)` and one label (1 for left, else 0) are appended, and nothing else changes. Equal lengths are preserved. The prediction request carries the whole history. |
| `Tool.ClicksSendWholeHistory` | main.py:89-92 | After N clicks with no clear, the last request's points and labels are the earlier prompts followed by exactly those N clicks. |
| `Tool.Clear` | main.py:171-174 | Points and labels become empty and the mask absent. No other session field changes. |
| `Tool.LoadCurrent` | main.py:80-84 | The handler acts only when `0 <= idx < len(list)`. It then installs the read image, resets the prompts and mask, and hands the image to the worker. Otherwise nothing changes. |
| `Tool.Next` | main.py:177-180 | The index advances by exactly one and the image loads only when `idx < len-1`. Otherwise nothing changes: there is no wraparound and the index never exceeds `len-1`. |
| `Tool.ImportDir` | main.py:53-61 | A cancelled dialog changes nothing. Otherwise the list becomes the joined image entries. When that list is non-empty, the session becomes `Clear` of the old one with the new list, index 0 and the read image, so the output directory is kept, and the image goes to the worker. An empty result changes nothing else. |
| `Tool.ChooseOutputDir` | main.py:63-67 | The output directory is recorded unless the dialog was cancelled. No other field changes. |
| `Tool.ReceiveMask` | main.py:94-96 | The delivered mask replaces the current one. No other field changes. |
| `Tool.Save` | main.py:141-169 | The result is `PlanSave` of the session. No mask or no output directory means nothing changes. Any failure, including an empty mask, leaves the session as it was. A successful save, whether or not the encoder produced a file, then skips exactly as `Next`. |
| `Tool.SaveAfterEmptyImportFails` | main.py:53-61 | After an import that finds no image, a save of the stale non-empty mask fails with `IndexOutOfRange` and changes nothing. |
| `Tool.ClearKeepsPostedPrompts` | SAMpredictor.py:32-36 | The worker keeps its own copy of the prompts: after two clicks and a clear, the window holds no points while the pending prediction still holds both points and their labels. |
| `Tool.EmptyImportAtStartIsIdle` | main.py:53-61 | A directory with no images, imported into a fresh window, leaves the session idle and starts no task. |
| `Tool.RailFoDTool.constructor` | main.py:14-36 | A new window holds the initial session (index -1, nothing loaded) and a fresh worker asked to load the model. |
| `Tool.RailFoDTool.OnClick` | main.py:89-92 | The fields become `Click`'s session and the worker's slot receives its predict request. |
| `Tool.RailFoDTool.OnClear` | main.py:171-174 | The fields become `Clear` of the old session. The worker is not touched. |
| `Tool.RailFoDTool.LoadCurrentImage` | main.py:80-84 | The fields and the worker slot follow `LoadCurrent`. |
| `Tool.RailFoDTool.OnNext` | main.py:177-180 | The fields and the worker slot follow `Next`. |
| `Tool.RailFoDTool.OnImportDir` | main.py:53-61 | The fields and the worker slot follow `ImportDir`. |
| `Tool.RailFoDTool.OnExportDir` | main.py:63-67 | The fields follow `ChooseOutputDir`. |
| `Tool.RailFoDTool.OnMaskReady` | main.py:94-96 | The fields follow `ReceiveMask`. |
| `Tool.RailFoDTool.OnSave` | main.py:141-169 | The result, the fields and the worker slot follow `Save`. |

## Findings

| source | as written | input that shows it | evidently intended | confidence | as-written member | corrected member |
|---|---|---|---|---|---|---|
| UI.py:26-27 | The hit test accepts `lx <= offset_x + pixmap.width()` (and likewise for y), both ends inclusive. | Zoom 100%, a 640-pixel-wide image shown at offset 0, press at `lx = 640`: it is accepted and maps to `real_x = 640`, one past the last column. | A half-open test `offset_x <= lx < offset_x + width`, so the mapped point always lies in the image. | medium, not executed | `UI.RightEdgePressMapsPastImage` | `UI.HalfOpenPressStaysInImage` |

## Left out

- Qt widgets and wiring (`setupUi`, `init_connections`, `keyPressEvent`, button focus, status-bar texts): UI plumbing. Status messages are kept only by meaning (`Message`).
- Directory dialogs: the chosen path is a parameter, with `""` for a cancelled dialog.
- `os.listdir` is a parameter (`listing`) taken in the order given. `os.path.join`/`basename` use one separator character, and entry names are assumed relative.
- The model lower-cases ASCII letters only. `str.lower` also maps other Unicode letters, which the model does not.
- `cv2.imread` becomes the parameter `read`, the image shape or None. `cv2.imencode` and `tofile` become the flags `encodeOk` and `writeOk`. Pixel data is not modelled, so the RGB channels of the export are absent. The model keeps the crop limits and the alpha plane.
- numpy broadcasting: a one-row or one-column mask would broadcast into the alpha channel. The model reports every mask whose shape differs from the image as `ShapeMismatch`.
- Unhandled exceptions in `on_save` (no image, shape mismatch, bad index, failed write) are failures that leave the session unchanged. How PyQt reacts to an exception escaping a slot is not modelled.
- Rendering: the 0.7/0.3 mask blend, `cv2.circle` markers, the colour conversion, `QPainter` cursor drawing and `pixmap.scaled` smoothing. The scaled pixmap's size is a parameter of `MousePress` and `Layout`. Only the size, offset and colour arithmetic is modelled.
- `update_ui_display` and `update_brush_cursor`: the model does not track which handlers redraw. The label geometry is a parameter of the press mapping.
- `on_zoom_changed` and `on_brush_changed` only store the widget value and redraw. The values appear as `ZoomPercent` and `BrushRadius` parameters of the display functions.
- Floating point: the zoom is an exact integer percent. Python's float `value / 100.0` can truncate differently at exact boundaries, e.g. `int(50 * 0.58)` is 28 while the exact value is 29.
- Threading: `QThread.start()` is not modelled, nor is the fact that starting a running thread does nothing. A run is one sequential step (`WorkerThread.Run`) over the slot as it stands. Mid-run overwrites and out-of-order delivery are not modelled.
- The segmentation model (`sam_model_registry`, `SamPredictor`) is the `Oracle` parameter. The oracle's answer does not depend on which image's features were last extracted.
- NaN scores, for which numpy's argmax returns the first NaN, are not modelled.
- The worker's checkpoint, model type and device are fixed configuration and are not modelled.
