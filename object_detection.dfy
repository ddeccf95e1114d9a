/**
 * The generic (SSD-style) object detection helper: the network reports box
 * corners, class ids, scores and a detection count in four tensors; every
 * examined index whose score is above 0.6 becomes one detection record.
 */
module ObjectDetection {
  import opened Common
  import Utils
  import ModelHelperBase

  /** Indices scoring above this are reported. */
  const ScoreThreshold: real := 0.6

  /**
   * The four output tensors: corners (top, left, bottom, right per index,
   * relative to the input size), class ids, scores, and the count.
   */
  datatype Output = Output(locations: seq<real>, classes: seq<real>, scores: seq<real>, count: real)

  /** Number of indices examined: the count tensor cast to int (a negative count examines none). */
  function Examined(out: Output): nat
  {
    if Trunc(out.count) < 0 then 0 else Trunc(out.count)
  }

  /** The tensors hold every examined index. */
  predicate WellSized(out: Output)
  {
    4 * Examined(out) <= |out.locations| && Examined(out) <= |out.classes| && Examined(out) <= |out.scores|
  }

  /** Index i is reported. */
  predicate Accepted(out: Output, i: nat)
    requires i < |out.scores|
  {
    out.scores[i] > ScoreThreshold
  }

  /** Every reported index names a label. */
  predicate ClassesInRange(out: Output, nLabels: nat)
    requires WellSized(out)
  {
    forall i :: 0 <= i < Examined(out) ==> Accepted(out, i) ==> 0 <= Trunc(out.classes[i]) < nLabels
  }

  /**
   * The record of index i: corners scaled to the input size and cast to
   * int, the class-tensor value cast to int as class id, the shortened
   * label as class name, the score as class confidence and -1 for the
   * detection confidence the network lacks.
   */
  function DetectionAt(out: Output, i: nat, inputW: int, inputH: int, labels: seq<string>, cam: string, now: int,
                       frameId: int): Detection
    requires WellSized(out) && i < Examined(out) && 0 <= Trunc(out.classes[i]) < |labels|
  {
    var top := Trunc(out.locations[4 * i] * inputH as real);
    var left := Trunc(out.locations[4 * i + 1] * inputW as real);
    var bottom := Trunc(out.locations[4 * i + 2] * inputH as real);
    var right := Trunc(out.locations[4 * i + 3] * inputW as real);
    var classId := Trunc(out.classes[i]);
    Detection(classId, ClassNameOf(labels[classId]), cam, now, left, top, right, bottom, out.scores[i], -1.0, frameId)
  }

  /** The records of the accepted indices among the first n, in index order. */
  function Detections(out: Output, n: nat, inputW: int, inputH: int, labels: seq<string>, cam: string, now: int,
                      frameId: int): (ds: seq<Detection>)
    requires WellSized(out) && n <= Examined(out) && ClassesInRange(out, |labels|)
    ensures |ds| <= n
    decreases n, 1
  {
    if n == 0 then [] else DetectionsThroughLast(out, n, inputW, inputH, labels, cam, now, frameId)
  }

  /** The records of the first n - 1 indices, then that of index n - 1 if it is accepted. */
  function DetectionsThroughLast(out: Output, n: nat, inputW: int, inputH: int, labels: seq<string>, cam: string,
                                 now: int, frameId: int): (ds: seq<Detection>)
    requires WellSized(out) && 0 < n <= Examined(out) && ClassesInRange(out, |labels|)
    ensures |ds| <= n
    decreases n, 0
  {
    var prev := Detections(out, n - 1, inputW, inputH, labels, cam, now, frameId);
    if Accepted(out, n - 1) then prev + [DetectionAt(out, n - 1, inputW, inputH, labels, cam, now, frameId)] else prev
  }

  /** One more index appends its record exactly when it is accepted. */
  lemma DetectionsStep(out: Output, n: nat, inputW: int, inputH: int, labels: seq<string>, cam: string, now: int,
                       frameId: int)
    requires WellSized(out) && 0 < n <= Examined(out) && ClassesInRange(out, |labels|)
    ensures Detections(out, n, inputW, inputH, labels, cam, now, frameId) ==
            Detections(out, n - 1, inputW, inputH, labels, cam, now, frameId) +
            (if Accepted(out, n - 1) then [DetectionAt(out, n - 1, inputW, inputH, labels, cam, now, frameId)] else [])
  {
    assert Detections(out, n, inputW, inputH, labels, cam, now, frameId) ==
           DetectionsThroughLast(out, n, inputW, inputH, labels, cam, now, frameId);
  }

  /** How many of the first n indices are accepted. */
  function AcceptedCount(out: Output, n: nat): (c: nat)
    requires n <= |out.scores|
    ensures c <= n
  {
    if n == 0 then 0 else AcceptedCount(out, n - 1) + (if Accepted(out, n - 1) then 1 else 0)
  }

  /** There is one record per accepted index. */
  lemma {:induction false} DetectionsCount(out: Output, n: nat, inputW: int, inputH: int, labels: seq<string>, cam: string,
                                           now: int, frameId: int)
    requires WellSized(out) && n <= Examined(out) && ClassesInRange(out, |labels|)
    ensures |Detections(out, n, inputW, inputH, labels, cam, now, frameId)| == AcceptedCount(out, n)
  {
    if n > 0 {
      DetectionsCount(out, n - 1, inputW, inputH, labels, cam, now, frameId);
      DetectionsStep(out, n, inputW, inputH, labels, cam, now, frameId);
    }
  }

  /** Every accepted index among the first n has its record in the list. */
  lemma {:induction false} DetectionsComplete(out: Output, n: nat, inputW: int, inputH: int, labels: seq<string>,
                                              cam: string, now: int, frameId: int, i: nat)
    requires WellSized(out) && n <= Examined(out) && ClassesInRange(out, |labels|)
    requires i < n && Accepted(out, i)
    ensures DetectionAt(out, i, inputW, inputH, labels, cam, now, frameId) in
            Detections(out, n, inputW, inputH, labels, cam, now, frameId)
  {
    DetectionsStep(out, n, inputW, inputH, labels, cam, now, frameId);
    if i < n - 1 {
      DetectionsComplete(out, n - 1, inputW, inputH, labels, cam, now, frameId, i);
    }
  }

  /**
   * Every record carries a score above the threshold, -1 as detection
   * confidence, a class id with a label, the camera, the clock reading and
   * the frame number.
   */
  lemma {:induction false} DetectionsSound(out: Output, n: nat, inputW: int, inputH: int, labels: seq<string>,
                                           cam: string, now: int, frameId: int)
    requires WellSized(out) && n <= Examined(out) && ClassesInRange(out, |labels|)
    ensures forall d :: d in Detections(out, n, inputW, inputH, labels, cam, now, frameId) ==>
      d.classConfidence > ScoreThreshold && d.detectionConfidence == -1.0 && 0 <= d.classId < |labels| &&
      d.cam == cam && d.timestampNs == now && d.frameId == frameId
  {
    if n > 0 {
      DetectionsSound(out, n - 1, inputW, inputH, labels, cam, now, frameId);
      DetectionsStep(out, n, inputW, inputH, labels, cam, now, frameId);
    }
  }

  /** The decode loop: examine each index in turn and append the record of every accepted one. */
  method DecodeDetections(out: Output, inputW: int, inputH: int, labels: seq<string>, cam: string, now: int,
                          frameId: int) returns (temp: seq<Detection>)
    requires WellSized(out) && ClassesInRange(out, |labels|)
    ensures temp == Detections(out, Examined(out), inputW, inputH, labels, cam, now, frameId)
  {
    var numDetected := Trunc(out.count);
    temp := [];
    var i := 0;
    while i < numDetected
      invariant 0 <= i <= Examined(out)
      invariant temp == Detections(out, i, inputW, inputH, labels, cam, now, frameId)
    {
      var score := out.scores[i];
      DetectionsStep(out, i + 1, inputW, inputH, labels, cam, now, frameId);
      if score > ScoreThreshold {
        temp := temp + [DetectionAt(out, i, inputW, inputH, labels, cam, now, frameId)];
      }
      i := i + 1;
    }
  }

  /** The generic detection helper: the base helper's state, the camera name and the labels. */
  class ObjectDetectionHelper {
    const base: ModelHelperBase.ModelHelper
    const cam: string
    var labels: seq<string>
    var labelCount: nat
    var detections: seq<Detection>

    /** The constructor reads the labels file `labelsFile`; the process exits when that fails. */
    constructor (base: ModelHelperBase.ModelHelper, cam: string, labelsFile: Option<seq<string>>)
      requires labelsFile.Some?
      ensures this.base == base && this.cam == cam
      ensures labels == Utils.PaddedLabels(labelsFile.value) && labelCount == |labelsFile.value|
      ensures detections == []
    {
      this.base := base;
      this.cam := cam;
      var status, newLabels, count := Utils.ReadLabelsFile(labelsFile, [], Some(0));
      labels := newLabels;
      labelCount := count.value;
      detections := [];
    }

    /**
     * postprocess: the detections are replaced by the records of this
     * frame's accepted indices, stamped with the clock reading `now`;
     * it always succeeds.
     */
    method Postprocess(out: Output, now: int) returns (ok: bool)
      requires WellSized(out) && ClassesInRange(out, |labels|)
      modifies this
      ensures ok && labels == old(labels) && labelCount == old(labelCount)
      ensures detections == Detections(out, Examined(out), base.inputWidth, base.inputHeight, labels, cam, now,
                                       base.numFramesProcessed)
    {
      var temp := DecodeDetections(out, base.inputWidth, base.inputHeight, labels, cam, now, base.numFramesProcessed);
      detections := temp;
      ok := true;
    }

    /**
     * worker: postprocess, then publish the detections (when there are
     * any) and the output image stamped with the clock reading `clock`.
     */
    method Worker(out: Output, meta: FrameMeta, now: int, clock: int, outbox: Outbox) returns (ok: bool)
      requires WellSized(out) && ClassesInRange(out, |labels|)
      modifies this, outbox
      ensures ok && labels == old(labels) && labelCount == old(labelCount)
      ensures detections == Detections(out, Examined(out), base.inputWidth, base.inputHeight, labels, cam, now,
                                       base.numFramesProcessed)
      ensures outbox.entries == old(outbox.entries) + DetectorWrites(detections, meta, clock)
    {
      ok := Postprocess(out, now);
      if detections != [] {
        outbox.Write(Publish(DetectionChannel, DetectionBatch(detections)));
      }
      outbox.Write(Publish(ImageChannel, CameraFrame(meta.(timestampNs := clock), OutputImage)));
    }
  }
}
