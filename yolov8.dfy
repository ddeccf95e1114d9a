/**
 * The YOLOv8 helper (also used for YOLOv11): the output tensor is read
 * transposed, one candidate per row; a candidate survives when its best
 * class score beats the score threshold; an external non-maximum
 * suppression picks the survivors to report, and each becomes one detection
 * record.
 */
module YoloV8 {
  import opened Common
  import Utils
  import ModelHelperBase

  /** The helper's three thresholds. */
  const ModelScoreThreshold: real := 0.45
  const ModelConfidenceThreshold: real := 0.25
  const ModelNmsThreshold: real := 0.5

  /** cv::Rect: the top-left corner and the size. */
  datatype Rect = Rect(x: int, y: int, width: int, height: int)

  /** One candidate that passed the score threshold: its box, best class and that class's score. */
  datatype Candidate = Candidate(box: Rect, classId: nat, confidence: real)

  // ------------------------------------------------------------- transpose

  /**
   * The first n attributes of candidate i of a (dimensions x rows) output
   * tensor, that is, the first n entries of row i of its transpose.
   */
  function Column(data: seq<real>, rows: nat, i: nat, n: nat): (c: seq<real>)
    requires i < rows && n * rows <= |data|
    ensures |c| == n
    ensures forall k :: 0 <= k < n ==> k * rows + i < |data| && c[k] == data[k * rows + i]
    decreases n
  {
    if n == 0 then []
    else
      assert n * rows == (n - 1) * rows + rows;
      Column(data, rows, i, n - 1) + [data[(n - 1) * rows + i]]
  }

  /**
   * cv::transpose of the (dimensions x rows) output, as its first m rows:
   * row i holds the `dimensions` attributes of candidate i.
   */
  function Transpose(data: seq<real>, dimensions: nat, rows: nat, m: nat): (t: seq<seq<real>>)
    requires m <= rows && dimensions * rows <= |data|
    ensures |t| == m
    ensures forall i :: 0 <= i < m ==> t[i] == Column(data, rows, i, dimensions)
    decreases m
  {
    if m == 0 then [] else Transpose(data, dimensions, rows, m - 1) + [Column(data, rows, m - 1, dimensions)]
  }

  /** After the transpose, attribute k of candidate i is data[k * rows + i]. */
  lemma TransposeAt(data: seq<real>, dimensions: nat, rows: nat, i: nat, k: nat)
    requires dimensions * rows <= |data| && i < rows && k < dimensions
    ensures var t := Transpose(data, dimensions, rows, rows);
      |t[i]| == dimensions && k * rows + i < |data| && t[i][k] == data[k * rows + i]
  {
    var t := Transpose(data, dimensions, rows, rows);
    assert t[i] == Column(data, rows, i, dimensions);
  }

  /** Each transposed row holds all `dimensions` attributes. */
  lemma TransposeScored(data: seq<real>, dimensions: nat, rows: nat, labelCount: nat)
    requires 4 + labelCount <= dimensions && dimensions * rows <= |data|
    ensures Scored(Transpose(data, dimensions, rows, rows), labelCount)
  {
  }

  // ------------------------------------------------------------- candidates

  /**
   * The location cv::minMaxLoc reports for the maximum of a score row,
   * taken to be the first position holding the maximum.
   */
  function MaxLoc(s: seq<real>): (i: nat)
    requires |s| > 0
    ensures i < |s|
    ensures forall j :: 0 <= j < |s| ==> s[j] <= s[i]
    ensures forall j :: 0 <= j < i ==> s[j] < s[i]
    decreases |s|
  {
    if |s| == 1 then 0
    else
      var m := MaxLoc(s[..|s| - 1]);
      if s[m] < s[|s| - 1] then |s| - 1 else m
  }

  /**
   * The box of a candidate with centre (xc, yc) and size (w, h), relative
   * to the model input, in pixels of the camera frame; every cast truncates.
   */
  function BoxOf(c: seq<real>, inputW: int, inputH: int): Rect
    requires |c| >= 4
  {
    Rect(Trunc((c[0] - 0.5 * c[2]) * inputW as real), Trunc((c[1] - 0.5 * c[3]) * inputH as real),
         Trunc(c[2] * inputW as real), Trunc(c[3] * inputH as real))
  }

  /**
   * A candidate row read as a box and its best class among the first
   * `labelCount` scores, which follow the four box attributes.
   */
  function CandidateOf(c: seq<real>, labelCount: nat, inputW: int, inputH: int): (r: Candidate)
    requires 0 < labelCount && 4 + labelCount <= |c|
    ensures r.box == BoxOf(c, inputW, inputH)
    ensures r.classId < labelCount && r.confidence == c[4 + r.classId]
    ensures forall k :: 4 <= k < 4 + labelCount ==> c[k] <= r.confidence
    ensures forall k :: 4 <= k < 4 + r.classId ==> c[k] < r.confidence
  {
    var scores := c[4..4 + labelCount];
    var best := MaxLoc(scores);
    assert forall k :: 4 <= k < 4 + labelCount ==> c[k] == scores[k - 4];
    Candidate(BoxOf(c, inputW, inputH), best, scores[best])
  }

  /** Every candidate row holds its box and `labelCount` scores. */
  predicate Scored(cands: seq<seq<real>>, labelCount: nat)
  {
    forall i :: 0 <= i < |cands| ==> 4 + labelCount <= |cands[i]|
  }

  /** The candidates whose best score is above the score threshold, in row order. */
  function KeptCandidates(cands: seq<seq<real>>, labelCount: nat, inputW: int, inputH: int): (kept: seq<Candidate>)
    requires 0 < labelCount && Scored(cands, labelCount)
    ensures |kept| <= |cands|
    decreases |cands|, 1
  {
    if cands == [] then [] else KeptThroughLast(cands, labelCount, inputW, inputH)
  }

  /** The kept candidates of all rows but the last, then the last row's if it passes. */
  function KeptThroughLast(cands: seq<seq<real>>, labelCount: nat, inputW: int, inputH: int): (kept: seq<Candidate>)
    requires 0 < labelCount && Scored(cands, labelCount) && cands != []
    ensures |kept| <= |cands|
    decreases |cands|, 0
  {
    var prev := KeptCandidates(cands[..|cands| - 1], labelCount, inputW, inputH);
    var c := CandidateOf(cands[|cands| - 1], labelCount, inputW, inputH);
    if c.confidence > ModelScoreThreshold then prev + [c] else prev
  }

  /** Every kept candidate scored strictly above the threshold and names one of the `labelCount` classes. */
  lemma {:induction false} KeptAboveThreshold(cands: seq<seq<real>>, labelCount: nat, inputW: int, inputH: int)
    requires 0 < labelCount && Scored(cands, labelCount)
    ensures var kept := KeptCandidates(cands, labelCount, inputW, inputH);
      ClassesBelow(kept, labelCount) &&
      forall j :: 0 <= j < |kept| ==> kept[j].confidence > ModelScoreThreshold
    decreases |cands|
  {
    if cands != [] {
      KeptAboveThreshold(cands[..|cands| - 1], labelCount, inputW, inputH);
      assert KeptCandidates(cands, labelCount, inputW, inputH) == KeptThroughLast(cands, labelCount, inputW, inputH);
    }
  }

  /** The reading of every row, in row order, whether or not it passes the threshold. */
  function Readings(cands: seq<seq<real>>, labelCount: nat, inputW: int, inputH: int): (r: seq<Candidate>)
    requires 0 < labelCount && Scored(cands, labelCount)
    ensures |r| == |cands|
    ensures forall i :: 0 <= i < |cands| ==> r[i] == CandidateOf(cands[i], labelCount, inputW, inputH)
    decreases |cands|
  {
    if cands == [] then []
    else Readings(cands[..|cands| - 1], labelCount, inputW, inputH) +
         [CandidateOf(cands[|cands| - 1], labelCount, inputW, inputH)]
  }

  /** Every kept candidate is the reading of some row. */
  lemma {:induction false} KeptFromRows(cands: seq<seq<real>>, labelCount: nat, inputW: int, inputH: int)
    requires 0 < labelCount && Scored(cands, labelCount)
    ensures forall c :: c in KeptCandidates(cands, labelCount, inputW, inputH) ==>
      c in Readings(cands, labelCount, inputW, inputH)
    decreases |cands|
  {
    if cands != [] {
      var front := cands[..|cands| - 1];
      KeptFromRows(front, labelCount, inputW, inputH);
      assert KeptCandidates(cands, labelCount, inputW, inputH) == KeptThroughLast(cands, labelCount, inputW, inputH);
      var all := Readings(cands, labelCount, inputW, inputH);
      assert all == Readings(front, labelCount, inputW, inputH) + [all[|cands| - 1]];
    }
  }

  /** Every row whose best score is above the threshold is kept. */
  lemma {:induction false} KeptComplete(cands: seq<seq<real>>, labelCount: nat, inputW: int, inputH: int, i: nat)
    requires 0 < labelCount && Scored(cands, labelCount) && i < |cands|
    requires Readings(cands, labelCount, inputW, inputH)[i].confidence > ModelScoreThreshold
    ensures Readings(cands, labelCount, inputW, inputH)[i] in KeptCandidates(cands, labelCount, inputW, inputH)
    decreases |cands|
  {
    var front := cands[..|cands| - 1];
    assert KeptCandidates(cands, labelCount, inputW, inputH) == KeptThroughLast(cands, labelCount, inputW, inputH);
    if i < |cands| - 1 {
      assert front[i] == cands[i];
      KeptComplete(front, labelCount, inputW, inputH, i);
    }
  }

  /** One more row either adds its reading to the kept list or leaves the list alone. */
  lemma KeptStep(cands: seq<seq<real>>, labelCount: nat, inputW: int, inputH: int, i: nat)
    requires 0 < labelCount && Scored(cands, labelCount) && i < |cands|
    ensures var c := CandidateOf(cands[i], labelCount, inputW, inputH);
      KeptCandidates(cands[..i + 1], labelCount, inputW, inputH) ==
      KeptCandidates(cands[..i], labelCount, inputW, inputH) + (if c.confidence > ModelScoreThreshold then [c] else [])
  {
    assert KeptCandidates(cands[..i + 1], labelCount, inputW, inputH) ==
           KeptThroughLast(cands[..i + 1], labelCount, inputW, inputH);
    assert cands[..i + 1][..i] == cands[..i];
  }

  /** The boxes of a candidate list, in order. */
  function Boxes(kept: seq<Candidate>): (r: seq<Rect>)
    ensures |r| == |kept| && forall j :: 0 <= j < |kept| ==> r[j] == kept[j].box
  {
    if kept == [] then [] else Boxes(kept[..|kept| - 1]) + [kept[|kept| - 1].box]
  }

  /** The class ids of a candidate list, in order. */
  function ClassIds(kept: seq<Candidate>): (r: seq<nat>)
    ensures |r| == |kept| && forall j :: 0 <= j < |kept| ==> r[j] == kept[j].classId
  {
    if kept == [] then [] else ClassIds(kept[..|kept| - 1]) + [kept[|kept| - 1].classId]
  }

  /** The confidences of a candidate list, in order. */
  function Confidences(kept: seq<Candidate>): (r: seq<real>)
    ensures |r| == |kept| && forall j :: 0 <= j < |kept| ==> r[j] == kept[j].confidence
  {
    if kept == [] then [] else Confidences(kept[..|kept| - 1]) + [kept[|kept| - 1].confidence]
  }

  /** Appending a candidate appends its box, class and score to the three projections. */
  lemma ProjectionsAppend(kept: seq<Candidate>, c: Candidate)
    ensures Boxes(kept + [c]) == Boxes(kept) + [c.box]
    ensures ClassIds(kept + [c]) == ClassIds(kept) + [c.classId]
    ensures Confidences(kept + [c]) == Confidences(kept) + [c.confidence]
  {
    assert (kept + [c])[..|kept|] == kept;
  }

  /**
   * The candidate loop: walk the transposed rows and append the box, class
   * and score of every row whose best score is above the threshold to the
   * three parallel lists, which therefore stay aligned.
   */
  method DecodeCandidates(cands: seq<seq<real>>, labelCount: nat, inputW: int, inputH: int)
    returns (boxes: seq<Rect>, classIds: seq<nat>, confidences: seq<real>)
    requires 0 < labelCount && Scored(cands, labelCount)
    ensures var kept := KeptCandidates(cands, labelCount, inputW, inputH);
      boxes == Boxes(kept) && classIds == ClassIds(kept) && confidences == Confidences(kept)
  {
    boxes, classIds, confidences := [], [], [];
    ghost var kept: seq<Candidate> := [];
    for i := 0 to |cands|
      invariant kept == KeptCandidates(cands[..i], labelCount, inputW, inputH)
      invariant boxes == Boxes(kept) && classIds == ClassIds(kept) && confidences == Confidences(kept)
    {
      var c := CandidateOf(cands[i], labelCount, inputW, inputH);
      KeptStep(cands, labelCount, inputW, inputH, i);
      if c.confidence > ModelScoreThreshold {
        ProjectionsAppend(kept, c);
        confidences := confidences + [c.confidence];
        classIds := classIds + [c.classId];
        boxes := boxes + [c.box];
        kept := kept + [c];
      }
    }
    assert cands[..|cands|] == cands;
  }

  // ------------------------------------------------------------- detections

  /** cv::dnn::NMSBoxes, which the model does not open: it only ever returns indices of the boxes it was given. */
  type NmsBoxes = (seq<Rect>, seq<real>, real, real) -> seq<int>

  ghost predicate NmsInRange(nms: NmsBoxes)
  {
    forall b, c, s, t, k :: 0 <= k < |nms(b, c, s, t)| ==> 0 <= nms(b, c, s, t)[k] < |b|
  }

  /** Every candidate names one of the first `n` labels. */
  predicate ClassesBelow(kept: seq<Candidate>, n: int)
  {
    forall j :: 0 <= j < |kept| ==> kept[j].classId < n
  }

  /** Every index picks a candidate. */
  predicate IndicesBelow(indices: seq<int>, n: int)
  {
    forall k :: 0 <= k < |indices| ==> 0 <= indices[k] < n
  }

  /**
   * The record for one reported candidate: corners x, y, x + width,
   * y + height, the shortened label as class name, its score as class
   * confidence and -1 for the detection confidence the network lacks.
   */
  function DetectionOf(c: Candidate, labels: seq<string>, cam: string, now: int, frameId: int): Detection
    requires c.classId < |labels|
  {
    Detection(c.classId, ClassNameOf(labels[c.classId]), cam, now,
              c.box.x, c.box.y, c.box.x + c.box.width, c.box.y + c.box.height,
              c.confidence, -1.0, frameId)
  }

  /** One record per index, in index order. */
  function DetectionsAt(kept: seq<Candidate>, indices: seq<int>, labels: seq<string>, cam: string, now: int, frameId: int)
    : (ds: seq<Detection>)
    requires IndicesBelow(indices, |kept|) && ClassesBelow(kept, |labels|)
    ensures |ds| == |indices|
    decreases |indices|, 1
  {
    if indices == [] then [] else DetectionsThroughLast(kept, indices, labels, cam, now, frameId)
  }

  /** The records of all indices but the last, then the last index's record. */
  function DetectionsThroughLast(kept: seq<Candidate>, indices: seq<int>, labels: seq<string>, cam: string, now: int,
                                 frameId: int): (ds: seq<Detection>)
    requires IndicesBelow(indices, |kept|) && ClassesBelow(kept, |labels|) && indices != []
    ensures |ds| == |indices|
    decreases |indices|, 0
  {
    DetectionsAt(kept, indices[..|indices| - 1], labels, cam, now, frameId) +
    [DetectionOf(kept[indices[|indices| - 1]], labels, cam, now, frameId)]
  }

  /** One more index appends its record. */
  lemma DetectionsStep(kept: seq<Candidate>, indices: seq<int>, labels: seq<string>, cam: string, now: int,
                       frameId: int, i: nat)
    requires IndicesBelow(indices, |kept|) && ClassesBelow(kept, |labels|) && i < |indices|
    ensures DetectionsAt(kept, indices[..i + 1], labels, cam, now, frameId) ==
            DetectionsAt(kept, indices[..i], labels, cam, now, frameId) +
            [DetectionOf(kept[indices[i]], labels, cam, now, frameId)]
  {
    assert DetectionsAt(kept, indices[..i + 1], labels, cam, now, frameId) ==
           DetectionsThroughLast(kept, indices[..i + 1], labels, cam, now, frameId);
    assert indices[..i + 1][..i] == indices[..i];
  }

  /** Record k reports the candidate at indices[k], with the published field values. */
  lemma {:induction false} DetectionsAtElement(kept: seq<Candidate>, indices: seq<int>, labels: seq<string>,
                                               cam: string, now: int, frameId: int, k: nat)
    requires IndicesBelow(indices, |kept|) && ClassesBelow(kept, |labels|) && k < |indices|
    ensures var d := DetectionsAt(kept, indices, labels, cam, now, frameId)[k];
      var c := kept[indices[k]];
      d.classId == c.classId && d.className == ClassNameOf(labels[c.classId]) &&
      d.classConfidence == c.confidence && d.detectionConfidence == -1.0 &&
      d.xMin == c.box.x && d.yMin == c.box.y &&
      d.xMax == c.box.x + c.box.width && d.yMax == c.box.y + c.box.height &&
      d.cam == cam && d.timestampNs == now && d.frameId == frameId
    decreases |indices|
  {
    assert DetectionsAt(kept, indices, labels, cam, now, frameId) ==
           DetectionsThroughLast(kept, indices, labels, cam, now, frameId);
    if k < |indices| - 1 {
      DetectionsAtElement(kept, indices[..|indices| - 1], labels, cam, now, frameId, k);
    }
  }

  /**
   * The record loop: for each index nms returned, look up the box, class
   * and score at that index in the three parallel lists.
   */
  method AssembleDetections(boxes: seq<Rect>, classIds: seq<nat>, confidences: seq<real>, indices: seq<int>,
                            labels: seq<string>, cam: string, now: int, frameId: int, ghost kept: seq<Candidate>)
    returns (temp: seq<Detection>)
    requires boxes == Boxes(kept) && classIds == ClassIds(kept) && confidences == Confidences(kept)
    requires IndicesBelow(indices, |kept|) && ClassesBelow(kept, |labels|)
    ensures temp == DetectionsAt(kept, indices, labels, cam, now, frameId)
  {
    temp := [];
    for i := 0 to |indices|
      invariant temp == DetectionsAt(kept, indices[..i], labels, cam, now, frameId)
    {
      var idx := indices[i];
      var d := Detection(classIds[idx], ClassNameOf(labels[classIds[idx]]), cam, now,
                         boxes[idx].x, boxes[idx].y, boxes[idx].x + boxes[idx].width, boxes[idx].y + boxes[idx].height,
                         confidences[idx], -1.0, frameId);
      assert d == DetectionOf(kept[idx], labels, cam, now, frameId);
      DetectionsStep(kept, indices, labels, cam, now, frameId, i);
      temp := temp + [d];
    }
    assert indices[..|indices|] == indices;
  }

  /** The records of one frame: candidates, then nms over their boxes and scores, then one record per index. */
  function FrameDetections(data: seq<real>, dimensions: nat, rows: nat, labelCount: nat, inputW: int, inputH: int,
                           nms: NmsBoxes, labels: seq<string>, cam: string, now: int, frameId: int): seq<Detection>
    requires 0 < labelCount <= |labels| && 4 + labelCount <= dimensions && dimensions * rows <= |data|
    requires NmsInRange(nms)
  {
    var cands := Transpose(data, dimensions, rows, rows);
    TransposeScored(data, dimensions, rows, labelCount);
    KeptAboveThreshold(cands, labelCount, inputW, inputH);
    var kept := KeptCandidates(cands, labelCount, inputW, inputH);
    var indices := nms(Boxes(kept), Confidences(kept), ModelConfidenceThreshold, ModelNmsThreshold);
    DetectionsAt(kept, indices, labels, cam, now, frameId)
  }

  /**
   * Every record of a frame reports a row whose best score is above the
   * score threshold, with that score, a class among the real labels and -1
   * as detection confidence.
   */
  lemma FrameDetectionsSound(data: seq<real>, dimensions: nat, rows: nat, labelCount: nat, inputW: int, inputH: int,
                             nms: NmsBoxes, labels: seq<string>, cam: string, now: int, frameId: int)
    requires 0 < labelCount <= |labels| && 4 + labelCount <= dimensions && dimensions * rows <= |data|
    requires NmsInRange(nms)
    ensures var ds := FrameDetections(data, dimensions, rows, labelCount, inputW, inputH, nms, labels, cam, now, frameId);
      forall k :: 0 <= k < |ds| ==>
        ds[k].classConfidence > ModelScoreThreshold && 0 <= ds[k].classId < labelCount &&
        ds[k].detectionConfidence == -1.0 && ds[k].frameId == frameId
  {
    var cands := Transpose(data, dimensions, rows, rows);
    TransposeScored(data, dimensions, rows, labelCount);
    KeptAboveThreshold(cands, labelCount, inputW, inputH);
    var kept := KeptCandidates(cands, labelCount, inputW, inputH);
    var indices := nms(Boxes(kept), Confidences(kept), ModelConfidenceThreshold, ModelNmsThreshold);
    var ds := FrameDetections(data, dimensions, rows, labelCount, inputW, inputH, nms, labels, cam, now, frameId);
    forall k | 0 <= k < |ds|
      ensures ds[k].classConfidence > ModelScoreThreshold && 0 <= ds[k].classId < labelCount &&
              ds[k].detectionConfidence == -1.0 && ds[k].frameId == frameId
    {
      DetectionsAtElement(kept, indices, labels, cam, now, frameId, k);
    }
  }

  /**
   * The part of postprocess after the labels check: transpose, the
   * candidate loop, nms, and the record loop.
   */
  method DecodeFrame(data: seq<real>, dimensions: nat, rows: nat, labelCount: nat, inputW: int, inputH: int,
                     nms: NmsBoxes, labels: seq<string>, cam: string, now: int, frameId: int)
    returns (temp: seq<Detection>)
    requires 0 < labelCount <= |labels| && 4 + labelCount <= dimensions && dimensions * rows <= |data|
    requires NmsInRange(nms)
    ensures temp == FrameDetections(data, dimensions, rows, labelCount, inputW, inputH, nms, labels, cam, now, frameId)
  {
    var cands := Transpose(data, dimensions, rows, rows);
    TransposeScored(data, dimensions, rows, labelCount);
    var boxes, classIds, confidences := DecodeCandidates(cands, labelCount, inputW, inputH);
    ghost var kept := KeptCandidates(cands, labelCount, inputW, inputH);
    var indices := nms(boxes, confidences, ModelConfidenceThreshold, ModelNmsThreshold);
    KeptAboveThreshold(cands, labelCount, inputW, inputH);
    temp := AssembleDetections(boxes, classIds, confidences, indices, labels, cam, now, frameId, kept);
  }

  // ------------------------------------------------------------- the helper

  /** The YOLOv8 helper: the base helper's state, the camera name and the labels. */
  class YoloV8Helper {
    const base: ModelHelperBase.ModelHelper
    const cam: string
    /** The lines of the labels file, or None when it cannot be opened. */
    const labelsFile: Option<seq<string>>
    var labels: seq<string>
    var labelCount: nat
    var detections: seq<Detection>

    ghost predicate Valid()
      reads this
    {
      labelCount <= |labels|
    }

    /** The constructor reads the labels; the process exits when that fails. */
    constructor (base: ModelHelperBase.ModelHelper, cam: string, labelsFile: Option<seq<string>>)
      requires labelsFile.Some?
      ensures Valid() && this.base == base && this.cam == cam && this.labelsFile == labelsFile
      ensures labels == Utils.PaddedLabels(labelsFile.value) && labelCount == |labelsFile.value|
      ensures detections == []
    {
      this.base := base;
      this.cam := cam;
      this.labelsFile := labelsFile;
      var status, newLabels, count := Utils.ReadLabelsFile(labelsFile, [], Some(0));
      labels := newLabels;
      labelCount := count.value;
      detections := [];
    }

    /** The class count postprocess will use: the labels are read again first if empty. */
    function ClassCount(): nat
      reads this
    {
      if labels == [] && labelsFile.Some? then |labelsFile.value| else labelCount
    }

    /**
     * postprocess on the output tensor `data` of shape `shape` (dimensions
     * = shape[1] attributes for each of rows = shape[2] candidates); `nms`
     * stands for cv::dnn::NMSBoxes and `now` for the clock reading stamped
     * on the records. Fails only when the labels are empty and cannot be
     * read again; otherwise the detections are replaced by this frame's.
     */
    method Postprocess(data: seq<real>, shape: seq<int>, nms: NmsBoxes, now: int) returns (ok: bool)
      requires Valid()
      requires |shape| >= 3 && 0 <= shape[1] && 0 <= shape[2] && shape[1] * shape[2] <= |data|
      requires 0 < ClassCount() && 4 + ClassCount() <= shape[1]
      requires NmsInRange(nms)
      modifies this
      ensures Valid()
      ensures ok <==> old(labels) != [] || labelsFile.Some?
      ensures !ok ==> labels == old(labels) && labelCount == old(labelCount) && detections == old(detections)
      ensures ok && old(labels) == [] ==>
                labels == Utils.PaddedLabels(labelsFile.value) && labelCount == |labelsFile.value|
      ensures ok && old(labels) != [] ==> labels == old(labels) && labelCount == old(labelCount)
      ensures ok ==> labelCount == old(ClassCount())
      ensures ok ==> (0 < labelCount <= |labels| &&
                      detections == FrameDetections(data, shape[1], shape[2], labelCount, base.inputWidth,
                                                    base.inputHeight, nms, labels, cam, now, base.numFramesProcessed))
    {
      if labels == [] {
        var status, newLabels, count := Utils.ReadLabelsFile(labelsFile, labels, Some(labelCount));
        if status == Utils.Error {
          return false;
        }
        labels := newLabels;
        labelCount := count.value;
      }
      var temp := DecodeFrame(data, shape[1], shape[2], labelCount, base.inputWidth, base.inputHeight,
                              nms, labels, cam, now, base.numFramesProcessed);
      detections := temp;
      ok := true;
    }

    /**
     * worker: postprocess, then publish the detections (when there are
     * any) and the output image stamped with the clock reading `clock`.
     */
    method Worker(data: seq<real>, shape: seq<int>, nms: NmsBoxes, meta: FrameMeta, now: int, clock: int, out: Outbox)
      returns (ok: bool)
      requires Valid()
      requires |shape| >= 3 && 0 <= shape[1] && 0 <= shape[2] && shape[1] * shape[2] <= |data|
      requires 0 < ClassCount() && 4 + ClassCount() <= shape[1]
      requires NmsInRange(nms)
      modifies this, out
      ensures Valid()
      ensures ok <==> old(labels) != [] || labelsFile.Some?
      ensures ok ==> out.entries == old(out.entries) + DetectorWrites(detections, meta, clock)
      ensures !ok ==> out.entries == old(out.entries) && detections == old(detections)
      ensures ok ==> labelCount == old(ClassCount())
      ensures ok ==> (0 < labelCount <= |labels| &&
                      detections == FrameDetections(data, shape[1], shape[2], labelCount, base.inputWidth,
                                                    base.inputHeight, nms, labels, cam, now, base.numFramesProcessed))
    {
      ok := Postprocess(data, shape, nms, now);
      if !ok {
        return;
      }
      if detections != [] {
        out.Write(Publish(DetectionChannel, DetectionBatch(detections)));
      }
      out.Write(Publish(ImageChannel, CameraFrame(meta.(timestampNs := clock), OutputImage)));
    }
  }
}
