/**
 * The segmentation worker: a single pending-task slot that the three task methods
 * overwrite, and one run of the worker over that slot. The segmentation model itself is an
 * oracle supplied as a parameter.
 */
module SamWorker {
  import opened Wrappers
  import opened Types

  datatype TaskKind = NoTask | LoadModel | SetImage | Predict

  /** The pending slot: the task type and the inputs last handed over. */
  datatype TaskSlot = TaskSlot(task: TaskKind, image: Option<Image>, points: Option<seq<Point>>, labels: Option<seq<int>>)

  const EmptySlot := TaskSlot(NoTask, None, None, None)

  /** A call of one of the three task methods, with its arguments. */
  datatype Request =
    | LoadModelRequest
    | SetImageRequest(image: Option<Image>)
    | PredictRequest(points: seq<Point>, labels: seq<int>)

  function KindOf(req: Request): TaskKind {
    match req
    case LoadModelRequest => LoadModel
    case SetImageRequest(_) => SetImage
    case PredictRequest(_, _) => Predict
  }

  /**
   * The slot after a task method: the task type is the request's, and only the inputs of
   * that request are overwritten.
   */
  function Submit(slot: TaskSlot, req: Request): (r: TaskSlot)
    ensures r.task == KindOf(req)
    ensures req.LoadModelRequest? ==> r.image == slot.image && r.points == slot.points && r.labels == slot.labels
    ensures req.SetImageRequest? ==> r.image == req.image && r.points == slot.points && r.labels == slot.labels
    ensures req.PredictRequest? ==> r.image == slot.image && r.points == Some(req.points) && r.labels == Some(req.labels)
  {
    match req
    case LoadModelRequest => slot.(task := LoadModel)
    case SetImageRequest(img) => slot.(task := SetImage, image := img)
    case PredictRequest(ps, ls) => slot.(task := Predict, points := Some(ps), labels := Some(ls))
  }

  /** The slot after a sequence of task methods, in call order. */
  function SubmitAll(slot: TaskSlot, reqs: seq<Request>): TaskSlot
    decreases |reqs|
  {
    if reqs == [] then slot else SubmitAll(Submit(slot, reqs[0]), reqs[1..])
  }

  /** The image of the last SetImage request, or `current` when there is none. */
  function LastImage(current: Option<Image>, reqs: seq<Request>): Option<Image>
    decreases |reqs|
  {
    if reqs == [] then current
    else LastImage(if reqs[0].SetImageRequest? then reqs[0].image else current, reqs[1..])
  }

  /**
   * The last call wins: after any non-empty run of task methods the pending task is the
   * last one's, and the pending image is the one handed to the last SetImage call.
   */
  lemma {:induction false} LastRequestWins(slot: TaskSlot, reqs: seq<Request>)
    requires reqs != []
    ensures SubmitAll(slot, reqs).task == KindOf(reqs[|reqs| - 1])
    ensures SubmitAll(slot, reqs).image == LastImage(slot.image, reqs)
    decreases |reqs|
  {
    if |reqs| == 1 {
      assert reqs[1..] == [];
    } else {
      LastRequestWins(Submit(slot, reqs[0]), reqs[1..]);
    }
  }

  /** One candidate mask of the oracle's answer, with its score. */
  datatype Candidate = Candidate(mask: Mask, score: real)

  /**
   * The segmentation model: whether loading succeeds, whether feature extraction of an
   * image succeeds, and the answer to a prompt (None when the call raises).
   */
  datatype Oracle = Oracle(loads: bool, setImage: Image -> bool, predict: (seq<Point>, seq<int>) -> Option<seq<Candidate>>)

  /** The status messages of the worker, by meaning. */
  datatype Message = LoadingModel | ModelReady | FeaturesReady | Error

  /** What a run emits: a status message, the model-loaded signal, or a mask. */
  datatype Event = Status(message: Message) | ModelLoaded | MaskReady(mask: Mask)

  /** The effect of one run: whether a predictor is present afterwards, and what was emitted. */
  datatype StepResult = StepResult(predictorLoaded: bool, events: seq<Event>)

  function Scores(cs: seq<Candidate>): (r: seq<real>)
    ensures |r| == |cs| && forall i :: 0 <= i < |cs| ==> r[i] == cs[i].score
  {
    seq(|cs|, i requires 0 <= i < |cs| => cs[i].score)
  }

  /** The index of the first maximum score (numpy's argmax). */
  function ArgMax(s: seq<real>): (k: nat)
    requires s != []
    ensures k < |s|
    ensures forall j :: 0 <= j < |s| ==> s[j] <= s[k]
    ensures forall j :: 0 <= j < k ==> s[j] < s[k]
  {
    if |s| == 1 then 0
    else
      var k := ArgMax(s[..|s| - 1]);
      if s[|s| - 1] > s[k] then |s| - 1 else k
  }

  /** Of three candidates scored 0.2, 0.9 and 0.5 the second is chosen. */
  lemma ArgMaxExample()
    ensures ArgMax([0.2, 0.9, 0.5]) == 1
  {
    var k := ArgMax([0.2, 0.9, 0.5]);
    assert [0.2, 0.9, 0.5][1] == 0.9;
  }

  /** The gate of the predict branch: a predictor and at least one pending point. */
  predicate PredictGateOpen(slot: TaskSlot, loaded: bool) {
    loaded && slot.points.Some? && |slot.points.value| > 0
  }

  /**
   * One run of the worker over the slot it finds. Any exception inside the run is caught
   * and reported as an error status.
   */
  function RunStep(slot: TaskSlot, loaded: bool, oracle: Oracle): (r: StepResult)
    // The load branch is the only one that installs a predictor.
    ensures r.predictorLoaded == (loaded || (slot.task == LoadModel && oracle.loads))
    ensures ModelLoaded in r.events <==> slot.task == LoadModel && oracle.loads
    // No task, or a gate that is closed: nothing at all happens.
    ensures slot.task == NoTask ==> r.events == []
    ensures slot.task == SetImage && (!loaded || slot.image.None?) ==> r.events == []
    ensures slot.task == Predict && (!loaded || slot.points == Some([])) ==> r.events == []
    // A mask comes only from an open predict gate, alone, and is the first best-scored candidate.
    ensures forall i :: 0 <= i < |r.events| && r.events[i].MaskReady? ==>
              && r.events == [r.events[i]]
              && slot.task == Predict && PredictGateOpen(slot, loaded) && slot.labels.Some?
              && var answer := oracle.predict(slot.points.value, slot.labels.value);
                 answer.Some? && answer.value != []
                 && r.events[i].mask == answer.value[ArgMax(Scores(answer.value))].mask
    ensures slot.task == Predict && PredictGateOpen(slot, loaded) && slot.labels.Some? ==>
              var answer := oracle.predict(slot.points.value, slot.labels.value);
              answer.Some? && answer.value != [] ==>
                r.events == [MaskReady(answer.value[ArgMax(Scores(answer.value))].mask)]
    // What a load and an open set-image gate report; a failure is reported as an error status.
    ensures slot.task == LoadModel ==>
              r.events == if oracle.loads then [Status(LoadingModel), ModelLoaded, Status(ModelReady)]
                          else [Status(LoadingModel), Status(Error)]
    ensures slot.task == SetImage && loaded && slot.image.Some? ==>
              r.events == [Status(if oracle.setImage(slot.image.value) then FeaturesReady else Error)]
    // A prediction that raises (no points or labels pending, no answer, no candidate) reports an error.
    ensures slot.task == Predict && loaded && slot.points.None? ==> r.events == [Status(Error)]
    ensures slot.task == Predict && PredictGateOpen(slot, loaded) && slot.labels.None? ==> r.events == [Status(Error)]
    ensures slot.task == Predict && PredictGateOpen(slot, loaded) && slot.labels.Some? ==>
              var answer := oracle.predict(slot.points.value, slot.labels.value);
              answer.None? || answer.value == [] ==> r.events == [Status(Error)]
    // An error status comes last, and nothing but status messages is emitted with it.
    ensures Status(Error) in r.events ==>
              && r.events[|r.events| - 1] == Status(Error)
              && forall i :: 0 <= i < |r.events| ==> r.events[i].Status?
  {
    match slot.task
    case NoTask => StepResult(loaded, [])
    case LoadModel =>
      if oracle.loads then StepResult(true, [Status(LoadingModel), ModelLoaded, Status(ModelReady)])
      else StepResult(loaded, [Status(LoadingModel), Status(Error)])
    case SetImage =>
      if loaded && slot.image.Some? then
        StepResult(loaded, [Status(if oracle.setImage(slot.image.value) then FeaturesReady else Error)])
      else StepResult(loaded, [])
    case Predict =>
      if !loaded then StepResult(loaded, [])
      else if slot.points.None? then StepResult(loaded, [Status(Error)])  // len(None) raises
      else if slot.points.value == [] then StepResult(loaded, [])
      else if slot.labels.None? then StepResult(loaded, [Status(Error)])  // labels must accompany points
      else
        match oracle.predict(slot.points.value, slot.labels.value)
        case None => StepResult(loaded, [Status(Error)])
        case Some(cs) =>
          if cs == [] then StepResult(loaded, [Status(Error)])     // argmax of no scores raises
          else StepResult(loaded, [MaskReady(cs[ArgMax(Scores(cs))].mask)])
  }

  /** The worker thread: the pending slot and whether a predictor has been loaded. */
  class WorkerThread {
    var taskType: TaskKind
    var pendingImg: Option<Image>
    var pendingPoints: Option<seq<Point>>
    var pendingLabels: Option<seq<int>>
    var hasPredictor: bool

    function Pending(): TaskSlot
      reads this
    {
      TaskSlot(taskType, pendingImg, pendingPoints, pendingLabels)
    }

    constructor ()
      ensures Pending() == EmptySlot && !hasPredictor
    {
      taskType := NoTask;
      pendingImg := None;
      pendingPoints := None;
      pendingLabels := None;
      hasPredictor := false;
    }

    method LoadModelTask()
      modifies this
      ensures Pending() == Submit(old(Pending()), LoadModelRequest)
      ensures hasPredictor == old(hasPredictor)
    {
      taskType := LoadModel;
    }

    method SetImageTask(img: Option<Image>)
      modifies this
      ensures Pending() == Submit(old(Pending()), SetImageRequest(img))
      ensures hasPredictor == old(hasPredictor)
    {
      pendingImg := img;
      taskType := SetImage;
    }

    /** Stores copies of the caller's points and labels (sequences are values here). */
    method PredictTask(points: seq<Point>, labels: seq<int>)
      modifies this
      ensures Pending() == Submit(old(Pending()), PredictRequest(points, labels))
      ensures hasPredictor == old(hasPredictor)
    {
      pendingPoints := Some(points);
      pendingLabels := Some(labels);
      taskType := Predict;
    }

    /** One run over the slot as it stands; the slot itself is left as it was. */
    method Run(oracle: Oracle) returns (events: seq<Event>)
      modifies this
      ensures Pending() == old(Pending())
      ensures var step := RunStep(old(Pending()), old(hasPredictor), oracle);
              events == step.events && hasPredictor == step.predictorLoaded
    {
      events := [];
      if taskType == LoadModel {
        events := [Status(LoadingModel)];
        if oracle.loads {
          hasPredictor := true;
          events := events + [ModelLoaded, Status(ModelReady)];
        } else {
          events := events + [Status(Error)];
        }
      } else if taskType == SetImage {
        if hasPredictor && pendingImg.Some? {
          var ok := oracle.setImage(pendingImg.value);
          events := [Status(if ok then FeaturesReady else Error)];
        }
      } else if taskType == Predict {
        if hasPredictor {
          if pendingPoints.None? {
            events := [Status(Error)];
          } else if |pendingPoints.value| > 0 {
            if pendingLabels.None? {
              events := [Status(Error)];
            } else {
              var answer := oracle.predict(pendingPoints.value, pendingLabels.value);
              if answer.None? || answer.value == [] {
                events := [Status(Error)];
              } else {
                var best := ArgMax(Scores(answer.value));
                events := [MaskReady(answer.value[best].mask)];
              }
            }
          }
        }
      }
    }
  }
}
