/**
 * The annotation session of the main window: the image list and current index, the current
 * image and mask, the prompt points with their labels, and the output directory. Each handler
 * is a pure transition on a Session value that also names the task, if any, it hands to the
 * segmentation worker; the RailFoDTool class performs the same steps on its fields.
 */
module Tool {
  import opened Wrappers
  import opened Types
  import Files
  import Export
  import opened SamWorker

  datatype Session = Session(
    imgList: seq<string>,
    imgIdx: int,
    image: Option<Image>,
    mask: Option<Mask>,
    points: seq<Point>,
    labels: seq<int>,
    outputDir: Option<string>)

  /** The session as the window starts: no images (index -1), nothing loaded, no prompts. */
  const Initial := Session([], -1, None, None, [], [], None)

  /** Points and labels stay parallel, every label is 0 or 1, and the index never drops below -1. */
  predicate WellFormed(s: Session) {
    && |s.points| == |s.labels|
    && (forall i :: 0 <= i < |s.labels| ==> IsLabel(s.labels[i]))
    && s.imgIdx >= -1
  }

  /** A session after a handler, and the task handed to the worker (None when there is none). */
  datatype Outcome = Outcome(session: Session, request: Option<Request>)

  /** The prompt history: points and labels with the mask dropped. */
  predicate SamePrompts(s: Session, t: Session) {
    s.points == t.points && s.labels == t.labels && s.mask == t.mask
  }

  /** A click records one point and its label and asks for a prediction over the whole history. */
  function Click(s: Session, x: int, y: int, isLeft: bool): (r: Outcome)
    ensures WellFormed(s) ==> WellFormed(r.session)
    ensures r.session == s.(points := r.session.points, labels := r.session.labels)
    ensures |r.session.points| == |s.points| + 1 && r.session.points[..|s.points|] == s.points
    ensures r.session.points[|s.points|] == Point(x, y)
    ensures |r.session.labels| == |s.labels| + 1 && r.session.labels[..|s.labels|] == s.labels
    ensures r.session.labels[|s.labels|] == (if isLeft then ForegroundLabel else BackgroundLabel)
    ensures r.request == Some(PredictRequest(r.session.points, r.session.labels))
  {
    var t := s.(points := s.points + [Point(x, y)], labels := s.labels + [LabelFor(isLeft)]);
    Outcome(t, Some(PredictRequest(t.points, t.labels)))
  }

  /** Clear drops every prompt and the mask, and touches nothing else. */
  function Clear(s: Session): (r: Session)
    ensures WellFormed(s) ==> WellFormed(r)
    ensures r.points == [] && r.labels == [] && r.mask == None
    ensures r.(points := s.points, labels := s.labels, mask := s.mask) == s
  {
    s.(points := [], labels := [], mask := None)
  }

  /**
   * Loads the image at the current index when the index is in range: `read` is what reading
   * that file gave (None when it could not be read). The prompts and the mask are reset and
   * the image is handed to the worker for feature extraction.
   */
  function LoadCurrent(s: Session, read: Option<Image>): (r: Outcome)
    ensures WellFormed(s) ==> WellFormed(r.session)
    ensures !(0 <= s.imgIdx < |s.imgList|) ==> r == Outcome(s, None)
    ensures 0 <= s.imgIdx < |s.imgList| ==>
              && r.session == Clear(s).(image := read)
              && r.request == Some(SetImageRequest(read))
  {
    if 0 <= s.imgIdx < |s.imgList| then
      Outcome(Clear(s.(image := read)), Some(SetImageRequest(read)))
    else
      Outcome(s, None)
  }

  /** Skip: advance by exactly one and load, unless already at the last image (no wraparound). */
  function Next(s: Session, read: Option<Image>): (r: Outcome)
    ensures WellFormed(s) ==> WellFormed(r.session)
    ensures r.session.imgList == s.imgList && r.session.outputDir == s.outputDir
    ensures r.session.imgIdx == if s.imgIdx < |s.imgList| - 1 then s.imgIdx + 1 else s.imgIdx
    ensures s.imgIdx <= |s.imgList| - 1 ==> r.session.imgIdx <= |s.imgList| - 1
    ensures s.imgIdx >= |s.imgList| - 1 ==> r == Outcome(s, None)
    ensures -1 <= s.imgIdx < |s.imgList| - 1 ==>
              && r.session.image == read && r.session.mask == None
              && r.session.points == [] && r.session.labels == []
              && r.request == Some(SetImageRequest(read))
  {
    if s.imgIdx < |s.imgList| - 1 then LoadCurrent(s.(imgIdx := s.imgIdx + 1), read)
    else Outcome(s, None)
  }

  /**
   * Import from a directory: `path` is the chosen directory ("" when the dialog was
   * cancelled) and `listing` its entries. The image entries, joined to the directory, become
   * the image list; only when there is at least one does the index go to 0 and the first
   * image load. An import that finds no image leaves everything else as it was.
   */
  function ImportDir(s: Session, path: string, listing: seq<string>, sep: char, read: Option<Image>): (r: Outcome)
    ensures WellFormed(s) ==> WellFormed(r.session)
    ensures path == "" ==> r == Outcome(s, None)
    ensures path != "" ==> r.session.imgList == Files.Paths(path, Files.ImageNames(listing), sep)
    ensures path != "" && Files.ImageNames(listing) == [] ==> r == Outcome(s.(imgList := []), None)
    ensures path != "" && Files.ImageNames(listing) != [] ==>
              && r.session == Clear(s).(imgList := Files.Paths(path, Files.ImageNames(listing), sep), imgIdx := 0, image := read)
              && r.request == Some(SetImageRequest(read))
  {
    if path == "" then Outcome(s, None)
    else
      var images := Files.Paths(path, Files.ImageNames(listing), sep);
      if |images| > 0 then LoadCurrent(s.(imgList := images, imgIdx := 0), read)
      else Outcome(s.(imgList := images), None)
  }

  /** Choosing the output directory records it unless the dialog was cancelled. */
  function ChooseOutputDir(s: Session, path: string): (r: Session)
    ensures WellFormed(s) ==> WellFormed(r)
    ensures r.outputDir == (if path == "" then s.outputDir else Some(path))
    ensures r.(outputDir := s.outputDir) == s
  {
    if path == "" then s else s.(outputDir := Some(path))
  }

  /** A mask delivered by the worker replaces the current one, whatever image it was computed for. */
  function ReceiveMask(s: Session, m: Mask): (r: Session)
    ensures WellFormed(s) ==> WellFormed(r)
    ensures r.mask == Some(m) && r.(mask := s.mask) == s
  {
    s.(mask := Some(m))
  }

  /** The result of a save and the session (and worker request) after it. */
  datatype SaveOutcome = SaveOutcome(result: Result<Export.Saved, Export.SaveError>, after: Outcome)

  /**
   * Save: plan the export of the current mask; a save that goes through (whether or not the
   * encoder produced a file) then skips to the next image, and any other save changes nothing.
   * `read` is what reading the next image gives.
   */
  function Save(s: Session, sep: char, encodeOk: bool, writeOk: bool, read: Option<Image>): (r: SaveOutcome)
    ensures WellFormed(s) ==> WellFormed(r.after.session)
    ensures r.result == Export.PlanSave(s.mask, s.outputDir, s.image, s.imgList, s.imgIdx, sep, encodeOk, writeOk)
    ensures s.mask.None? || s.outputDir.None? ==> r.result == Failure(Export.NotReady) && r.after == Outcome(s, None)
    ensures r.result.Failure? ==> r.after == Outcome(s, None)
    ensures r.result.Success? ==> r.after == Next(s, read)
  {
    var planned := Export.PlanSave(s.mask, s.outputDir, s.image, s.imgList, s.imgIdx, sep, encodeOk, writeOk);
    if planned.Success? then SaveOutcome(planned, Next(s, read))
    else SaveOutcome(planned, Outcome(s, None))
  }

  /** Clicks applied one after another, as (x, y, isLeft). */
  datatype Press = Press(x: int, y: int, isLeft: bool)

  function ClickAll(s: Session, presses: seq<Press>): Outcome
    decreases |presses|
  {
    if presses == [] then Outcome(s, None)
    else
      var o := Click(s, presses[0].x, presses[0].y, presses[0].isLeft);
      if |presses| == 1 then o else ClickAll(o.session, presses[1..])
  }

  function PointsOf(presses: seq<Press>): seq<Point> {
    seq(|presses|, i requires 0 <= i < |presses| => Point(presses[i].x, presses[i].y))
  }

  function LabelsOf(presses: seq<Press>): seq<int> {
    seq(|presses|, i requires 0 <= i < |presses| => LabelFor(presses[i].isLeft))
  }

  /**
   * After N clicks with no clear in between, the prediction requested by the last one carries
   * the whole history: the earlier prompts followed by exactly those N points and labels.
   */
  lemma {:induction false} ClicksSendWholeHistory(s: Session, presses: seq<Press>)
    requires presses != []
    ensures var o := ClickAll(s, presses);
            && o.session.points == s.points + PointsOf(presses)
            && o.session.labels == s.labels + LabelsOf(presses)
            && o.request == Some(PredictRequest(s.points + PointsOf(presses), s.labels + LabelsOf(presses)))
    decreases |presses|
  {
    var p := presses[0];
    var o := Click(s, p.x, p.y, p.isLeft);
    if |presses| == 1 {
      assert PointsOf(presses) == [Point(p.x, p.y)];
      assert LabelsOf(presses) == [LabelFor(p.isLeft)];
    } else {
      var rest := presses[1..];
      ClicksSendWholeHistory(o.session, rest);
      assert PointsOf(presses) == [Point(p.x, p.y)] + PointsOf(rest);
      assert LabelsOf(presses) == [LabelFor(p.isLeft)] + LabelsOf(rest);
    }
  }

  /**
   * An import that finds no image keeps the stale index and mask, so a later save of that
   * mask fails when it looks the source name up in the now empty image list.
   */
  lemma SaveAfterEmptyImportFails(s: Session, path: string, listing: seq<string>, sep: char,
                                  read: Option<Image>, encodeOk: bool, writeOk: bool, next: Option<Image>)
    requires path != "" && Files.ImageNames(listing) == []
    requires s.mask.Some? && s.outputDir.Some? && s.image.Some?
    requires Export.IsGrid(s.mask.value, s.image.value.h, s.image.value.w)
    requires !Export.NoneMarked(s.mask.value)
    ensures var t := ImportDir(s, path, listing, sep, read).session;
            && t.mask == s.mask && t.imgIdx == s.imgIdx && t.imgList == []
            && Save(t, sep, encodeOk, writeOk, next).result == Failure(Export.IndexOutOfRange)
            && Save(t, sep, encodeOk, writeOk, next).after.session == t
  {
  }

  /** Importing a directory without images into a fresh window leaves it idle. */
  lemma EmptyImportAtStartIsIdle(path: string, listing: seq<string>, sep: char, read: Option<Image>)
    requires Files.ImageNames(listing) == []
    ensures ImportDir(Initial, path, listing, sep, read) == Outcome(Initial, None)
  {
  }

  /** The main window: the session's fields, the path separator, and the worker it drives. */
  class RailFoDTool {
    const sep: char
    const worker: WorkerThread
    var imgList: seq<string>
    var imgIdx: int
    var currentImage: Option<Image>
    var currentMask: Option<Mask>
    var inputPoints: seq<Point>
    var inputLabels: seq<int>
    var outputDir: Option<string>

    function State(): Session
      reads this
    {
      Session(imgList, imgIdx, currentImage, currentMask, inputPoints, inputLabels, outputDir)
    }

    /** The worker's slot after an optional request. */
    static function Posted(slot: TaskSlot, req: Option<Request>): TaskSlot {
      if req.Some? then Submit(slot, req.value) else slot
    }

    /** A new window starts empty and asks the worker to load the model. */
    constructor (sep: char)
      ensures State() == Initial && this.sep == sep && fresh(worker)
      ensures worker.Pending() == Submit(EmptySlot, LoadModelRequest) && !worker.hasPredictor
    {
      this.sep := sep;
      imgList := [];
      imgIdx := -1;
      currentImage := None;
      currentMask := None;
      inputPoints := [];
      inputLabels := [];
      outputDir := None;
      var w := new WorkerThread();
      worker := w;
      new;
      worker.LoadModelTask();
    }

    method OnClick(x: int, y: int, isLeft: bool)
      modifies this, worker
      ensures var o := Click(old(State()), x, y, isLeft);
              State() == o.session && worker.Pending() == Posted(old(worker.Pending()), o.request)
      ensures worker.hasPredictor == old(worker.hasPredictor)
    {
      inputPoints := inputPoints + [Point(x, y)];
      inputLabels := inputLabels + [LabelFor(isLeft)];
      worker.PredictTask(inputPoints, inputLabels);
    }

    method OnClear()
      modifies this
      ensures State() == Clear(old(State()))
    {
      inputPoints := [];
      inputLabels := [];
      currentMask := None;
    }

    method LoadCurrentImage(read: Option<Image>)
      modifies this, worker
      ensures var o := LoadCurrent(old(State()), read);
              State() == o.session && worker.Pending() == Posted(old(worker.Pending()), o.request)
      ensures worker.hasPredictor == old(worker.hasPredictor)
    {
      if 0 <= imgIdx < |imgList| {
        currentImage := read;
        OnClear();
        worker.SetImageTask(read);
      }
    }

    method OnNext(read: Option<Image>)
      modifies this, worker
      ensures var o := Next(old(State()), read);
              State() == o.session && worker.Pending() == Posted(old(worker.Pending()), o.request)
      ensures worker.hasPredictor == old(worker.hasPredictor)
    {
      if imgIdx < |imgList| - 1 {
        imgIdx := imgIdx + 1;
        LoadCurrentImage(read);
      }
    }

    method OnImportDir(path: string, listing: seq<string>, read: Option<Image>)
      modifies this, worker
      ensures var o := ImportDir(old(State()), path, listing, sep, read);
              State() == o.session && worker.Pending() == Posted(old(worker.Pending()), o.request)
      ensures worker.hasPredictor == old(worker.hasPredictor)
    {
      if path != "" {
        imgList := Files.Paths(path, Files.ImageNames(listing), sep);
        if |imgList| > 0 {
          imgIdx := 0;
          LoadCurrentImage(read);
        }
      }
    }

    method OnExportDir(path: string)
      modifies this
      ensures State() == ChooseOutputDir(old(State()), path)
    {
      if path != "" {
        outputDir := Some(path);
      }
    }

    method OnMaskReady(mask: Mask)
      modifies this
      ensures State() == ReceiveMask(old(State()), mask)
    {
      currentMask := Some(mask);
    }

    method OnSave(encodeOk: bool, writeOk: bool, read: Option<Image>) returns (result: Result<Export.Saved, Export.SaveError>)
      modifies this, worker
      ensures var r := Save(old(State()), sep, encodeOk, writeOk, read);
              && result == r.result
              && State() == r.after.session
              && worker.Pending() == Posted(old(worker.Pending()), r.after.request)
      ensures worker.hasPredictor == old(worker.hasPredictor)
    {
      result := Export.PlanSave(currentMask, outputDir, currentImage, imgList, imgIdx, sep, encodeOk, writeOk);
      if result.Success? {
        OnNext(read);
      }
    }
  }

  /**
   * The worker keeps its own copy of the prompts it was handed: after two clicks and a
   * clear, the window's prompts are empty while the pending prediction still holds both
   * points and their labels.
   */
  method ClearKeepsPostedPrompts() returns (pending: TaskSlot, points: seq<Point>)
    ensures pending.task == Predict
    ensures pending.points == Some([Point(1, 2), Point(3, 0)])
    ensures pending.labels == Some([ForegroundLabel, BackgroundLabel])
    ensures points == []
  {
    var tool := new RailFoDTool('/');
    tool.OnClick(1, 2, true);
    assert tool.inputPoints == [Point(1, 2)] && tool.inputLabels == [ForegroundLabel];
    tool.OnClick(3, 0, false);
    assert tool.inputPoints == [Point(1, 2), Point(3, 0)];
    assert tool.inputLabels == [ForegroundLabel, BackgroundLabel];
    tool.OnClear();
    pending := tool.worker.Pending();
    points := tool.inputPoints;
  }
}
