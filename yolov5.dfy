/**
 * The YOLOv5 helper: its labels, the per-frame postprocess (scan the three
 * scales, suppress overlaps, build one detection record per surviving box)
 * and the worker that publishes the result.
 */
module YoloV5 {
  import opened Common
  import Utils
  import opened YoloV5Decode
  import opened YoloV5Nms
  import ModelHelperBase

  /**
   * The detection record for one surviving box: the label line of its class
   * as the class name, the corners x, y, x + w, y + h, the last class
   * confidence and the box confidence.
   */
  function DetectionOf(b: BBox, labels: seq<string>, cam: string, now: int, frameId: int): Detection
    requires 0 <= b.classId < |labels|
  {
    Detection(b.classId, labels[b.classId], cam, now, b.x, b.y, b.x + b.w, b.y + b.h,
              b.classConf, b.detectionConf, frameId)
  }

  /** Every box names one of the first `n` classes. */
  predicate ClassesBelow(boxes: seq<BBox>, n: int)
  {
    forall i :: 0 <= i < |boxes| ==> 0 <= boxes[i].classId < n
  }

  /** The records of a list of boxes, in list order. */
  function DetectionsOf(boxes: seq<BBox>, labels: seq<string>, cam: string, now: int, frameId: int)
    : (ds: seq<Detection>)
    requires ClassesBelow(boxes, |labels|)
    ensures |ds| == |boxes|
  {
    if boxes == [] then []
    else DetectionsOf(boxes[..|boxes| - 1], labels, cam, now, frameId) +
         [DetectionOf(boxes[|boxes| - 1], labels, cam, now, frameId)]
  }

  /** Record i describes box i: its class, label, corners and confidences. */
  lemma {:induction false} DetectionsOfAt(boxes: seq<BBox>, labels: seq<string>, cam: string, now: int, frameId: int, i: nat)
    requires ClassesBelow(boxes, |labels|) && i < |boxes|
    ensures var d := DetectionsOf(boxes, labels, cam, now, frameId)[i];
      var b := boxes[i];
      d.classId == b.classId && d.className == labels[b.classId] && d.cam == cam &&
      d.timestampNs == now && d.frameId == frameId &&
      d.xMin == b.x && d.yMin == b.y && d.xMax - d.xMin == b.w && d.yMax - d.yMin == b.h &&
      d.classConfidence == b.classConf && d.detectionConfidence == b.detectionConf
  {
    if i < |boxes| - 1 {
      DetectionsOfAt(boxes[..|boxes| - 1], labels, cam, now, frameId, i);
    }
  }

  /** The boxes nms keeps for one output tensor. */
  function FrameBoxes(data: seq<real>, modelW: nat, modelH: nat, inputW: int, inputH: int, nClasses: nat): seq<BBox>
  {
    NmsResult(DecodeScales(data, modelW, modelH, inputW as real, inputH as real, nClasses), NmsIouThreshold, false)
  }

  /**
   * Every kept box passed both thresholds and names one of the nClasses
   * classes, and no kept box overlaps a later one by more than the IoU
   * threshold, whatever the classes.
   */
  lemma FrameBoxesSound(data: seq<real>, modelW: nat, modelH: nat, inputW: int, inputH: int, nClasses: nat)
    requires TensorValues(modelW, modelH, nClasses) <= |data|
    ensures var k := FrameBoxes(data, modelW, modelH, inputW, inputH, nClasses);
      ClassesBelow(k, nClasses) &&
      (forall i :: 0 <= i < |k| ==>
         k[i].detectionConf >= BoxConfidenceThreshold && k[i].score >= ClassConfidenceThreshold) &&
      NoLaterSuppressed(k, NmsIouThreshold, false)
  {
    var all := DecodeScales(data, modelW, modelH, inputW as real, inputH as real, nClasses);
    var k := FrameBoxes(data, modelW, modelH, inputW, inputH, nClasses);
    DecodeScalesBoxesPass(data, 0, ScaleCounts(modelW, modelH), 0, inputW as real, inputH as real, nClasses);
    NmsOutput(all, NmsIouThreshold, false);
    forall i | 0 <= i < |k|
      ensures k[i].detectionConf >= BoxConfidenceThreshold && k[i].score >= ClassConfidenceThreshold
      ensures 0 <= k[i].classId < nClasses
    {
      assert k[i] in multiset(k);
      assert k[i] in multiset(all);
      var j :| 0 <= j < |all| && all[j] == k[i];
    }
  }

  /**
   * A box's class_conf is the confidence of the last class, not of the
   * class it names: with two classes at 0.9 and 0.1 the box names class 0,
   * scores 0.9 and carries class_conf 0.1.
   */
  lemma ClassConfIsLastClass()
    ensures var data := [0.5, 0.5, 0.2, 0.2, 0.8, 0.9, 0.1];
      var box := AnchorBox(data, 0, 100.0, 100.0, 2);
      box.Some? && box.value.classId == 0 && box.value.score == 0.9 && box.value.classConf == 0.1
  {
    var data := [0.5, 0.5, 0.2, 0.2, 0.8, 0.9, 0.1];
    assert BestClass(data, 5, 1) == (0, 0.9);
    assert BestClass(data, 5, 2) == (0, 0.9);
  }

  /**
   * The part of postprocess between reading the labels and building the
   * records: decode the three scales, then nms without the class check.
   */
  method DecodeFrame(data: seq<real>, modelW: nat, modelH: nat, inputW: int, inputH: int, nClasses: nat)
    returns (kept: seq<BBox>)
    requires TensorValues(modelW, modelH, nClasses) <= |data|
    ensures kept == FrameBoxes(data, modelW, modelH, inputW, inputH, nClasses)
    ensures ClassesBelow(kept, nClasses)
  {
    var bboxList := DecodeAllScales(data, modelW, modelH, inputW, inputH, nClasses);
    var sorted;
    sorted, kept := Nms(bboxList, NmsIouThreshold, false);
    FrameBoxesSound(data, modelW, modelH, inputW, inputH, nClasses);
  }

  /** The record loop of postprocess: one record per kept box, in order. */
  method AssembleDetections(kept: seq<BBox>, labels: seq<string>, cam: string, now: int, frameId: int)
    returns (temp: seq<Detection>)
    requires ClassesBelow(kept, |labels|)
    ensures temp == DetectionsOf(kept, labels, cam, now, frameId)
  {
    temp := [];
    for k := 0 to |kept|
      invariant temp == DetectionsOf(kept[..k], labels, cam, now, frameId)
    {
      assert kept[..k + 1][..k] == kept[..k];
      temp := temp + [DetectionOf(kept[k], labels, cam, now, frameId)];
    }
    assert kept[..|kept|] == kept;
  }

  /** The YOLOv5 helper: the base helper's state, the camera name and the labels. */
  class YoloV5Helper {
    const base: ModelHelperBase.ModelHelper
    const cam: string
    /** The lines of the labels file, or None when it cannot be opened. */
    const labelsFile: Option<seq<string>>
    var labels: seq<string>
    var labelCount: nat
    var detections: seq<Detection>

    ghost predicate Valid()
      reads this
    {
      labelCount <= |labels|
    }

    /** The constructor reads the labels; the process exits when that fails. */
    constructor (base: ModelHelperBase.ModelHelper, cam: string, labelsFile: Option<seq<string>>)
      requires labelsFile.Some?
      ensures Valid() && this.base == base && this.cam == cam && this.labelsFile == labelsFile
      ensures labels == Utils.PaddedLabels(labelsFile.value) && labelCount == |labelsFile.value|
      ensures detections == []
    {
      this.base := base;
      this.cam := cam;
      this.labelsFile := labelsFile;
      var status, newLabels, count := Utils.ReadLabelsFile(labelsFile, [], Some(0));
      labels := newLabels;
      labelCount := count.value;
      detections := [];
    }

    /** The class count postprocess will use: the labels are read again first if empty. */
    function ClassCount(): nat
      reads this
    {
      if labels == [] && labelsFile.Some? then |labelsFile.value| else labelCount
    }

    /**
     * postprocess on the output tensor `data`; `now` is the clock reading
     * stamped on the detections. Fails only when the labels are empty and
     * cannot be read again; otherwise the detections are replaced by the
     * records of the boxes nms keeps.
     */
    method Postprocess(data: seq<real>, now: int) returns (ok: bool)
      requires Valid()
      requires TensorValues(base.modelWidth, base.modelHeight, ClassCount()) <= |data|
      modifies this
      ensures Valid()
      ensures ok <==> old(labels) != [] || labelsFile.Some?
      ensures !ok ==> labels == old(labels) && labelCount == old(labelCount) && detections == old(detections)
      ensures ok && old(labels) == [] ==>
                labels == Utils.PaddedLabels(labelsFile.value) && labelCount == |labelsFile.value|
      ensures ok && old(labels) != [] ==> labels == old(labels) && labelCount == old(labelCount)
      ensures ok ==>
                var k := FrameBoxes(data, base.modelWidth, base.modelHeight, base.inputWidth, base.inputHeight, labelCount);
                ClassesBelow(k, |labels|) &&
                detections == DetectionsOf(k, labels, cam, now, base.numFramesProcessed)
    {
      if labels == [] {
        var status, newLabels, count := Utils.ReadLabelsFile(labelsFile, labels, Some(labelCount));
        if status == Utils.Error {
          return false;
        }
        labels := newLabels;
        labelCount := count.value;
      }
      var kept := DecodeFrame(data, base.modelWidth, base.modelHeight, base.inputWidth, base.inputHeight, labelCount);
      var temp := AssembleDetections(kept, labels, cam, now, base.numFramesProcessed);
      detections := temp;
      ok := true;
    }

    /**
     * worker: postprocess, then publish the detections (when there are
     * any) and the output image stamped with the clock reading `clock`.
     */
    method Worker(data: seq<real>, meta: FrameMeta, now: int, clock: int, out: Outbox) returns (ok: bool)
      requires Valid()
      requires TensorValues(base.modelWidth, base.modelHeight, ClassCount()) <= |data|
      modifies this, out
      ensures Valid()
      ensures ok <==> old(labels) != [] || labelsFile.Some?
      ensures ok ==> out.entries == old(out.entries) + DetectorWrites(detections, meta, clock)
      ensures !ok ==> out.entries == old(out.entries)
      ensures ok ==>
                var k := FrameBoxes(data, base.modelWidth, base.modelHeight, base.inputWidth, base.inputHeight, labelCount);
                ClassesBelow(k, |labels|) &&
                detections == DetectionsOf(k, labels, cam, now, base.numFramesProcessed)
    {
      ok := Postprocess(data, now);
      if !ok {
        return;
      }
      if detections != [] {
        out.Write(Publish(DetectionChannel, DetectionBatch(detections)));
      }
      out.Write(Publish(ImageChannel, CameraFrame(meta.(timestampNs := clock), OutputImage)));
    }
  }
}
