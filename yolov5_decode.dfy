/**
 * YOLOv5 output decoding: the single output tensor holds, for each of the
 * three grid scales in turn, gridH rows of gridW cells of three anchors, and
 * each anchor is nClasses + 5 values (x, y, w, h, box confidence, then one
 * confidence per class). The scan turns the anchors that pass both
 * confidence thresholds into candidate boxes, in tensor order.
 */
module YoloV5Decode {
  import opened Common

  /** A decoded candidate box; `score` is the best class confidence. */
  datatype BBox = BBox(classId: int, classConf: real, detectionConf: real, score: real,
                       x: int, y: int, w: int, h: int)

  const BoxConfidenceThreshold: real := 0.40
  const ClassConfidenceThreshold: real := 0.20
  const NmsIouThreshold: real := 0.50
  /** Anchors per grid cell. */
  const GridChannel: nat := 3
  /** Strides of the three output scales, in tensor order. */
  const GridScales: seq<nat> := [8, 16, 32]

  // ------------------------------------------------------------ class choice

  /**
   * The class loop over the n class confidences starting at `start`: the
   * first index holding the strictly greatest value, starting from
   * (0, 0.0), so that when no confidence is positive the answer is class 0
   * at 0.0.
   */
  function BestClass(data: seq<real>, start: nat, n: nat): (int, real)
    requires start + n <= |data|
  {
    if n == 0 then (0, 0.0)
    else
      var b := BestClass(data, start, n - 1);
      if data[start + n - 1] > b.1 then (n - 1, data[start + n - 1]) else b
  }

  /**
   * `best` is a first-maximum choice over the n confidences from `start`:
   * its confidence bounds every confidence of the window; when it is
   * positive it sits at the chosen index and every earlier confidence is
   * strictly smaller; otherwise the choice is class 0.
   */
  predicate FirstMaxChoice(data: seq<real>, start: nat, n: nat, best: (int, real))
    requires start + n <= |data|
  {
    0 <= best.0 && (n > 0 ==> best.0 < n) && best.1 >= 0.0 &&
    (forall j :: start <= j < start + n ==> data[j] <= best.1) &&
    (best.1 > 0.0 ==> best.0 < n && data[start + best.0] == best.1 &&
                      forall j :: start <= j < start + best.0 ==> data[j] < best.1) &&
    (best.1 == 0.0 ==> best.0 == 0)
  }

  /** The class loop's answer is the first maximum of the window (class 0 when nothing is positive). */
  lemma {:induction false} BestClassIsFirstMax(data: seq<real>, start: nat, n: nat)
    requires start + n <= |data|
    ensures FirstMaxChoice(data, start, n, BestClass(data, start, n))
  {
    if n > 0 {
      BestClassIsFirstMax(data, start, n - 1);
    }
  }

  /** The class loop as written; it also leaves behind the last confidence it read. */
  method ScanClasses(data: seq<real>, start: nat, n: nat) returns (classId: int, confidence: real, last: real)
    requires start + n <= |data|
    ensures (classId, confidence) == BestClass(data, start, n)
    ensures last == if n == 0 then 0.0 else data[start + n - 1]
  {
    classId, confidence, last := 0, 0.0, 0.0;
    var k := 0;
    while k < n
      invariant 0 <= k <= n
      invariant (classId, confidence) == BestClass(data, start, k)
      invariant last == if k == 0 then 0.0 else data[start + k - 1]
    {
      last := data[start + k];
      if last > confidence {
        confidence := last;
        classId := k;
      }
      k := k + 1;
    }
  }

  // ------------------------------------------------------------ anchor decode

  /**
   * The box decoded from the anchor whose nClasses + 5 values start at
   * `index`, or None when it fails the box or class confidence threshold.
   * Its class_conf is the confidence the class loop read last.
   */
  function AnchorBox(data: seq<real>, index: nat, scaleX: real, scaleY: real, nClasses: nat): Option<BBox>
    requires index + nClasses + 5 <= |data|
  {
    var boxConfidence := data[index + 4];
    if boxConfidence < BoxConfidenceThreshold then None
    else
      var best := BestClass(data, index + 5, nClasses);
      if best.1 < ClassConfidenceThreshold then None
      else
        var last := if nClasses == 0 then 0.0 else data[index + 5 + nClasses - 1];
        var cx := Trunc(data[index] * scaleX);
        var cy := Trunc(data[index + 1] * scaleY);
        var w := Trunc(data[index + 2] * scaleX);
        var h := Trunc(data[index + 3] * scaleY);
        Some(BBox(best.0, last, boxConfidence, best.1, cx - DivTrunc(w, 2), cy - DivTrunc(h, 2), w, h))
  }

  /**
   * An anchor yields a box exactly when its box confidence reaches 0.40 and
   * its best class confidence reaches 0.20 (both inclusive); the box names
   * that best class, and its class_conf is the last class's confidence.
   */
  lemma AnchorBoxPasses(data: seq<real>, index: nat, scaleX: real, scaleY: real, nClasses: nat)
    requires index + nClasses + 5 <= |data|
    ensures var r := AnchorBox(data, index, scaleX, scaleY, nClasses);
      var best := BestClass(data, index + 5, nClasses);
      (r.Some? <==> data[index + 4] >= BoxConfidenceThreshold && best.1 >= ClassConfidenceThreshold) &&
      (r.Some? ==>
         r.value.classId == best.0 && 0 <= r.value.classId < nClasses &&
         r.value.score == best.1 && r.value.detectionConf == data[index + 4] &&
         r.value.classConf == data[index + 5 + nClasses - 1])
  {
    BestClassIsFirstMax(data, index + 5, nClasses);
  }

  /** The body of the anchor loop: the confidence tests, the class loop and the box geometry. */
  method DecodeAnchor(data: seq<real>, index: nat, scaleX: real, scaleY: real, nClasses: nat)
    returns (box: Option<BBox>)
    requires index + nClasses + 5 <= |data|
    ensures box == AnchorBox(data, index, scaleX, scaleY, nClasses)
  {
    var boxConfidence := data[index + 4];
    if boxConfidence >= BoxConfidenceThreshold {
      var classId, confidence, last := ScanClasses(data, index + 5, nClasses);
      if confidence >= ClassConfidenceThreshold {
        var cx := Trunc((data[index] + 0.0) * scaleX);
        var cy := Trunc((data[index + 1] + 0.0) * scaleY);
        var w := Trunc(data[index + 2] * scaleX);
        var h := Trunc(data[index + 3] * scaleY);
        var x := cx - DivTrunc(w, 2);
        var y := cy - DivTrunc(h, 2);
        return Some(BBox(classId, last, boxConfidence, confidence, x, y, w, h));
      }
    }
    return None;
  }

  function OptionToSeq<T>(o: Option<T>): (s: seq<T>)
    ensures o.Some? ==> s == [o.value]
    ensures o.None? ==> s == []
  {
    if o.Some? then [o.value] else []
  }

  /** n consecutive anchors of `stride` values starting at `pos` lie inside a tensor of `len` values. */
  predicate Fits(len: nat, pos: nat, n: nat, stride: nat)
    decreases n
  {
    n == 0 || (pos + stride <= len && Fits(len, pos + stride, n - 1, stride))
  }

  /**
   * The number of tensor values in `count` consecutive blocks of `size`
   * values, counted block by block (equal to count * size, by
   * BlockValuesIsProduct).
   */
  function BlockValues(count: nat, size: nat): nat
  {
    if count == 0 then 0 else BlockValues(count - 1, size) + size
  }

  lemma {:induction false} BlockValuesIsProduct(count: nat, size: nat)
    ensures BlockValues(count, size) == count * size
  {
    if count > 0 {
      BlockValuesIsProduct(count - 1, size);
      assert count * size == (count - 1) * size + size;
    }
  }

  /** When the values of n anchors fit after `pos`, so does each anchor in turn. */
  lemma {:induction false} FitsFromBlock(len: nat, pos: nat, n: nat, stride: nat)
    requires pos + BlockValues(n, stride) <= len
    ensures Fits(len, pos, n, stride)
    decreases n
  {
    if n > 0 {
      FitsFromBlock(len, pos + stride, n - 1, stride);
    }
  }
  /**
   * The boxes of the n anchors of nClasses + 5 values each that start at
   * `pos`, in anchor order (cut short where the tensor ends).
   */
  function DecodeRun(data: seq<real>, pos: nat, n: nat, scaleX: real, scaleY: real, nClasses: nat)
    : (boxes: seq<BBox>)
    decreases n, 2
  {
    if n == 0 then [] else DecodeInside(data, pos, n, scaleX, scaleY, nClasses)
  }

  /** A run that has at least one anchor left; it stops where the tensor ends. */
  function DecodeInside(data: seq<real>, pos: nat, n: nat, scaleX: real, scaleY: real, nClasses: nat)
    : (boxes: seq<BBox>)
    requires n > 0
    decreases n, 1
  {
    if pos + nClasses + 5 > |data| then [] else DecodeFirst(data, pos, n, scaleX, scaleY, nClasses)
  }

  /** A run whose first anchor lies inside the tensor: that anchor's box, then the rest of the run. */
  function DecodeFirst(data: seq<real>, pos: nat, n: nat, scaleX: real, scaleY: real, nClasses: nat)
    : (boxes: seq<BBox>)
    requires n > 0 && pos + nClasses + 5 <= |data|
    decreases n, 0
  {
    OptionToSeq(AnchorBox(data, pos, scaleX, scaleY, nClasses)) +
    DecodeRun(data, pos + nClasses + 5, n - 1, scaleX, scaleY, nClasses)
  }

  /** The first anchor of a run, then the rest of the run. */
  lemma DecodeRunUnfold(data: seq<real>, pos: nat, n: nat, scaleX: real, scaleY: real, nClasses: nat)
    requires n > 0 && Fits(|data|, pos, n, nClasses + 5)
    ensures pos + nClasses + 5 <= |data| && Fits(|data|, pos + nClasses + 5, n - 1, nClasses + 5)
    ensures DecodeRun(data, pos, n, scaleX, scaleY, nClasses) ==
            OptionToSeq(AnchorBox(data, pos, scaleX, scaleY, nClasses)) +
            DecodeRun(data, pos + nClasses + 5, n - 1, scaleX, scaleY, nClasses)
  {
    assert DecodeRun(data, pos, n, scaleX, scaleY, nClasses) == DecodeFirst(data, pos, n, scaleX, scaleY, nClasses);
  }

  /** Moving the first anchor of a run over to the boxes already collected. */
  lemma RunStep(list: seq<BBox>, data: seq<real>, pos: nat, n: nat, scaleX: real, scaleY: real, nClasses: nat)
    requires n > 0 && Fits(|data|, pos, n, nClasses + 5)
    ensures list + DecodeRun(data, pos, n, scaleX, scaleY, nClasses) ==
            (list + OptionToSeq(AnchorBox(data, pos, scaleX, scaleY, nClasses))) +
            DecodeRun(data, pos + nClasses + 5, n - 1, scaleX, scaleY, nClasses)
  {
    DecodeRunUnfold(data, pos, n, scaleX, scaleY, nClasses);
  }

  /** Every box passed both confidence thresholds and names one of the nClasses classes. */
  predicate AllPass(boxes: seq<BBox>, nClasses: nat)
  {
    forall i :: 0 <= i < |boxes| ==>
      boxes[i].detectionConf >= BoxConfidenceThreshold && boxes[i].score >= ClassConfidenceThreshold &&
      0 <= boxes[i].classId < nClasses
  }

  lemma AllPassConcat(a: seq<BBox>, b: seq<BBox>, nClasses: nat)
    requires AllPass(a, nClasses) && AllPass(b, nClasses)
    ensures AllPass(a + b, nClasses)
  {
    forall i | 0 <= i < |a + b|
      ensures (a + b)[i] == if i < |a| then a[i] else b[i - |a|]
    {
    }
  }

  /** Every decoded box passes, and a run never yields more boxes than anchors. */
  lemma {:induction false} DecodeRunBoxesPass(data: seq<real>, pos: nat, n: nat, scaleX: real, scaleY: real, nClasses: nat)
    requires Fits(|data|, pos, n, nClasses + 5)
    ensures |DecodeRun(data, pos, n, scaleX, scaleY, nClasses)| <= n
    ensures AllPass(DecodeRun(data, pos, n, scaleX, scaleY, nClasses), nClasses)
    decreases n
  {
    if n > 0 {
      DecodeRunUnfold(data, pos, n, scaleX, scaleY, nClasses);
      AnchorBoxPasses(data, pos, scaleX, scaleY, nClasses);
      DecodeRunBoxesPass(data, pos + nClasses + 5, n - 1, scaleX, scaleY, nClasses);
      AllPassConcat(OptionToSeq(AnchorBox(data, pos, scaleX, scaleY, nClasses)),
                    DecodeRun(data, pos + nClasses + 5, n - 1, scaleX, scaleY, nClasses), nClasses);
    }
  }

  /** The anchors of a grid: gridH rows of gridW cells of GridChannel anchors. */
  function GridAnchors(gridW: nat, gridH: nat): nat
  {
    BlockValues(gridH, BlockValues(gridW, GridChannel))
  }

  /** A grid holds gridH * gridW * 3 anchors. */
  lemma GridAnchorsIsProduct(gridW: nat, gridH: nat)
    ensures GridAnchors(gridW, gridH) == gridH * gridW * GridChannel
  {
    BlockValuesIsProduct(gridW, GridChannel);
    BlockValuesIsProduct(gridH, gridW * GridChannel);
    assert gridH * (gridW * GridChannel) == gridH * gridW * GridChannel;
  }

  /**
   * The body of the innermost loop of get_bbox: decode the anchor at `pos`
   * and append its box if it passes. `n` anchors are left in the scale, and
   * `done` is what the whole scale will have produced once they are decoded.
   */
  method DecodeNext(data: seq<real>, pos: nat, scaleX: real, scaleY: real, nClasses: nat,
                    ghost n: nat, ghost done: seq<BBox>, list: seq<BBox>) returns (list': seq<BBox>)
    requires n > 0 && Fits(|data|, pos, n, nClasses + 5)
    requires done == list + DecodeRun(data, pos, n, scaleX, scaleY, nClasses)
    ensures Fits(|data|, pos + (nClasses + 5), n - 1, nClasses + 5)
    ensures done == list' + DecodeRun(data, pos + (nClasses + 5), n - 1, scaleX, scaleY, nClasses)
  {
    var box := DecodeAnchor(data, pos, scaleX, scaleY, nClasses);
    list' := list + OptionToSeq(box);
    RunStep(list, data, pos, n, scaleX, scaleY, nClasses);
  }

  /**
   * The three anchors of one grid cell, starting at tensor position
   * offset + index; the row has `cells` cells left, this one included, and
   * `rest` anchors of the scale follow the row. `done` is what the whole
   * scale will have produced once they are all decoded.
   */
  method DecodeCell(data: seq<real>, offset: nat, scaleX: real, scaleY: real, nClasses: nat,
                    index: nat, ghost cells: nat, ghost rest: nat, ghost done: seq<BBox>, list: seq<BBox>)
    returns (list': seq<BBox>, index': nat)
    requires cells > 0
    requires Fits(|data|, offset + index, BlockValues(cells, GridChannel) + rest, nClasses + 5)
    requires done == list + DecodeRun(data, offset + index, BlockValues(cells, GridChannel) + rest, scaleX, scaleY, nClasses)
    ensures Fits(|data|, offset + index', BlockValues(cells - 1, GridChannel) + rest, nClasses + 5)
    ensures done == list' + DecodeRun(data, offset + index', BlockValues(cells - 1, GridChannel) + rest, scaleX, scaleY, nClasses)
  {
    list', index' := list, index;
    ghost var after := BlockValues(cells - 1, GridChannel) + rest;
    ghost var n := GridChannel + after;
    var gc := 0;
    while gc < GridChannel
      invariant 0 <= gc <= GridChannel && n == GridChannel - gc + after
      invariant Fits(|data|, offset + index', n, nClasses + 5)
      invariant done == list' + DecodeRun(data, offset + index', n, scaleX, scaleY, nClasses)
    {
      list' := DecodeNext(data, offset + index', scaleX, scaleY, nClasses, n, done, list');
      index' := index' + (nClasses + 5);
      n := n - 1;
      gc := gc + 1;
    }
  }

  /**
   * One row of gridW cells, starting at tensor position offset + index; the
   * grid has `rows` rows left, this one included. `done` is what the whole
   * scale will have produced once they are all decoded.
   */
  method DecodeRow(data: seq<real>, offset: nat, scaleX: real, scaleY: real, nClasses: nat, gridW: nat,
                   index: nat, ghost rows: nat, ghost done: seq<BBox>, list: seq<BBox>)
    returns (list': seq<BBox>, index': nat)
    requires rows > 0
    requires Fits(|data|, offset + index, BlockValues(rows, BlockValues(gridW, GridChannel)), nClasses + 5)
    requires done == list + DecodeRun(data, offset + index, BlockValues(rows, BlockValues(gridW, GridChannel)),
                                      scaleX, scaleY, nClasses)
    ensures Fits(|data|, offset + index', BlockValues(rows - 1, BlockValues(gridW, GridChannel)), nClasses + 5)
    ensures done == list' + DecodeRun(data, offset + index', BlockValues(rows - 1, BlockValues(gridW, GridChannel)),
                                      scaleX, scaleY, nClasses)
  {
    list', index' := list, index;
    ghost var rest := BlockValues(rows - 1, BlockValues(gridW, GridChannel));
    ghost var cells := gridW;
    var gx := 0;
    while gx < gridW
      invariant 0 <= gx <= gridW && cells == gridW - gx
      invariant Fits(|data|, offset + index', BlockValues(cells, GridChannel) + rest, nClasses + 5)
      invariant done == list' + DecodeRun(data, offset + index', BlockValues(cells, GridChannel) + rest,
                                          scaleX, scaleY, nClasses)
    {
      list', index' := DecodeCell(data, offset, scaleX, scaleY, nClasses, index', cells, rest, done, list');
      cells := cells - 1;
      gx := gx + 1;
    }
  }

  /**
   * get_bbox: visit the gridH * gridW * 3 anchors in row, column, anchor
   * order, advancing `index` by nClasses + 5 each time, and append the boxes
   * that pass the thresholds to `bboxList`.
   */
  method GetBbox(data: seq<real>, offset: nat, scaleX: real, scaleY: real,
                 gridW: nat, gridH: nat, nClasses: nat, bboxList: seq<BBox>) returns (list: seq<BBox>)
    requires Fits(|data|, offset, GridAnchors(gridW, gridH), nClasses + 5)
    ensures list == bboxList + DecodeRun(data, offset, GridAnchors(gridW, gridH), scaleX, scaleY, nClasses)
  {
    ghost var rows := gridH;
    ghost var done := bboxList + DecodeRun(data, offset, GridAnchors(gridW, gridH), scaleX, scaleY, nClasses);
    list := bboxList;
    var index := 0;
    var gy := 0;
    while gy < gridH
      invariant 0 <= gy <= gridH && rows == gridH - gy
      invariant Fits(|data|, offset + index, BlockValues(rows, BlockValues(gridW, GridChannel)), nClasses + 5)
      invariant done == list + DecodeRun(data, offset + index, BlockValues(rows, BlockValues(gridW, GridChannel)),
                                         scaleX, scaleY, nClasses)
    {
      list, index := DecodeRow(data, offset, scaleX, scaleY, nClasses, gridW, index, rows, done, list);
      rows := rows - 1;
      gy := gy + 1;
    }
    assert list + DecodeRun(data, offset + index, 0, scaleX, scaleY, nClasses) == list;
  }

  // ------------------------------------------------------------ the three scales

  /**
   * The anchors of each scale, in tensor order: for the stride GridScales[i],
   * a grid of modelW / stride by modelH / stride cells.
   */
  function ScaleCounts(modelW: nat, modelH: nat): (counts: seq<nat>)
    ensures |counts| == |GridScales|
    ensures forall i :: 0 <= i < |GridScales| ==>
              counts[i] == GridAnchors(modelW / GridScales[i], modelH / GridScales[i])
  {
    [GridAnchors(modelW / GridScales[0], modelH / GridScales[0]),
     GridAnchors(modelW / GridScales[1], modelH / GridScales[1]),
     GridAnchors(modelW / GridScales[2], modelH / GridScales[2])]
  }

  /** Tensor values taken up by the scales i.. whose anchor counts are `counts`. */
  function SpanFrom(counts: seq<nat>, i: nat, nClasses: nat): nat
    decreases |counts| - i, 1
  {
    if i >= |counts| then 0 else SpanFirst(counts, i, nClasses)
  }

  /** The values of scale i, then those of the scales after it. */
  function SpanFirst(counts: seq<nat>, i: nat, nClasses: nat): nat
    requires i < |counts|
    decreases |counts| - i, 0
  {
    BlockValues(counts[i], nClasses + 5) + SpanFrom(counts, i + 1, nClasses)
  }

  /** The boxes of the scales i.., whose anchors start at tensor position `pos`. */
  function DecodeScalesFrom(data: seq<real>, pos: nat, counts: seq<nat>, i: nat,
                            scaleX: real, scaleY: real, nClasses: nat): seq<BBox>
    decreases |counts| - i, 1
  {
    if i >= |counts| then [] else DecodeScalesFirst(data, pos, counts, i, scaleX, scaleY, nClasses)
  }

  /** The boxes of scale i, then those of the scales after it. */
  function DecodeScalesFirst(data: seq<real>, pos: nat, counts: seq<nat>, i: nat,
                             scaleX: real, scaleY: real, nClasses: nat): seq<BBox>
    requires i < |counts|
    decreases |counts| - i, 0
  {
    DecodeRun(data, pos, counts[i], scaleX, scaleY, nClasses) +
    DecodeScalesFrom(data, pos + BlockValues(counts[i], nClasses + 5), counts, i + 1, scaleX, scaleY, nClasses)
  }

  /** Tensor values the three scales of a model take up. */
  function TensorValues(modelW: nat, modelH: nat, nClasses: nat): nat
  {
    SpanFrom(ScaleCounts(modelW, modelH), 0, nClasses)
  }

  /** The candidate boxes of all three scales, in tensor order. */
  function DecodeScales(data: seq<real>, modelW: nat, modelH: nat, scaleX: real, scaleY: real, nClasses: nat)
    : seq<BBox>
  {
    DecodeScalesFrom(data, 0, ScaleCounts(modelW, modelH), 0, scaleX, scaleY, nClasses)
  }

  /** The scales i.. are scale i, then the scales after it. */
  lemma ScalesUnfold(data: seq<real>, pos: nat, counts: seq<nat>, i: nat, scaleX: real, scaleY: real, nClasses: nat)
    requires i < |counts|
    ensures DecodeScalesFrom(data, pos, counts, i, scaleX, scaleY, nClasses) ==
      DecodeRun(data, pos, counts[i], scaleX, scaleY, nClasses) +
      DecodeScalesFrom(data, pos + BlockValues(counts[i], nClasses + 5), counts, i + 1, scaleX, scaleY, nClasses)
    ensures SpanFrom(counts, i, nClasses) == BlockValues(counts[i], nClasses + 5) + SpanFrom(counts, i + 1, nClasses)
  {
  }

  /** Moving the boxes of scale i over to the boxes already collected. */
  lemma ScalesStep(list: seq<BBox>, data: seq<real>, pos: nat, counts: seq<nat>, i: nat,
                   scaleX: real, scaleY: real, nClasses: nat)
    requires i < |counts|
    ensures list + DecodeScalesFrom(data, pos, counts, i, scaleX, scaleY, nClasses) ==
      (list + DecodeRun(data, pos, counts[i], scaleX, scaleY, nClasses)) +
      DecodeScalesFrom(data, pos + BlockValues(counts[i], nClasses + 5), counts, i + 1, scaleX, scaleY, nClasses)
  {
    ScalesUnfold(data, pos, counts, i, scaleX, scaleY, nClasses);
    AppendAssoc(list, DecodeRun(data, pos, counts[i], scaleX, scaleY, nClasses),
                DecodeScalesFrom(data, pos + BlockValues(counts[i], nClasses + 5), counts, i + 1, scaleX, scaleY, nClasses));
  }

  /** The values of the scales i.. are those of scale i, then those of the scales after it. */
  lemma SpanStep(counts: seq<nat>, i: nat, nClasses: nat)
    requires i < |counts|
    ensures SpanFrom(counts, i, nClasses) == BlockValues(counts[i], nClasses + 5) + SpanFrom(counts, i + 1, nClasses)
  {
  }

  lemma AppendAssoc<T>(a: seq<T>, b: seq<T>, c: seq<T>)
    ensures a + (b + c) == (a + b) + c
  {
  }

  /** The boxes of all the scales: every one passed both thresholds and names one of the classes. */
  lemma {:induction false} DecodeScalesBoxesPass(data: seq<real>, pos: nat, counts: seq<nat>, i: nat,
                                                 scaleX: real, scaleY: real, nClasses: nat)
    requires pos + SpanFrom(counts, i, nClasses) <= |data|
    ensures AllPass(DecodeScalesFrom(data, pos, counts, i, scaleX, scaleY, nClasses), nClasses)
    decreases |counts| - i
  {
    if i < |counts| {
      var next := pos + BlockValues(counts[i], nClasses + 5);
      ScalesUnfold(data, pos, counts, i, scaleX, scaleY, nClasses);
      FitsFromBlock(|data|, pos, counts[i], nClasses + 5);
      DecodeRunBoxesPass(data, pos, counts[i], scaleX, scaleY, nClasses);
      DecodeScalesBoxesPass(data, next, counts, i + 1, scaleX, scaleY, nClasses);
      AllPassConcat(DecodeRun(data, pos, counts[i], scaleX, scaleY, nClasses),
                    DecodeScalesFrom(data, next, counts, i + 1, scaleX, scaleY, nClasses), nClasses);
    }
  }

  /**
   * The tensor offset the scale loop adds for one scale,
   * grid_w * grid_h * 3 * (nClasses + 5), is exactly the values its anchors
   * take up.
   */
  method ScaleStride(gridW: nat, gridH: nat, e: nat) returns (stride: nat)
    ensures stride == BlockValues(GridAnchors(gridW, gridH), e)
  {
    stride := gridW * gridH * GridChannel * e;
    GridAnchorsIsProduct(gridW, gridH);
    BlockValuesIsProduct(GridAnchors(gridW, gridH), e);
    assert gridW * gridH * GridChannel == gridH * gridW * GridChannel;
  }

  /**
   * The rest of one turn of the scale loop of postprocess, once the grid
   * size is known: get_bbox appends the boxes of the grid's anchors, and the
   * tensor position moves past them.
   */
  method DecodeScale(data: seq<real>, gridW: nat, gridH: nat, scaleX: real, scaleY: real, nClasses: nat,
                     offset: nat, bboxList: seq<BBox>) returns (list: seq<BBox>, offset': nat)
    requires offset + BlockValues(GridAnchors(gridW, gridH), nClasses + 5) <= |data|
    ensures list == bboxList + DecodeRun(data, offset, GridAnchors(gridW, gridH), scaleX, scaleY, nClasses)
    ensures offset' == offset + BlockValues(GridAnchors(gridW, gridH), nClasses + 5)
  {
    FitsFromBlock(|data|, offset, GridAnchors(gridW, gridH), nClasses + 5);
    list := GetBbox(data, offset, scaleX, scaleY, gridW, gridH, nClasses, bboxList);
    offset' := ScaleStride(gridW, gridH, nClasses + 5);
    offset' := offset + offset';
  }

  /**
   * The scale loop of postprocess, over the strides 8, 16 and 32 in turn:
   * the grid is the model size divided by the stride, and the box scale is
   * the input image size.
   */
  method DecodeAllScales(data: seq<real>, modelW: nat, modelH: nat, inputW: int, inputH: int, nClasses: nat)
    returns (bboxList: seq<BBox>)
    requires TensorValues(modelW, modelH, nClasses) <= |data|
    ensures bboxList == DecodeScales(data, modelW, modelH, inputW as real, inputH as real, nClasses)
  {
    ghost var counts := ScaleCounts(modelW, modelH);
    ghost var done := DecodeScalesFrom(data, 0, counts, 0, inputW as real, inputH as real, nClasses);
    bboxList := [];
    var offset: nat := 0;
    var i := 0;
    while i < |GridScales|
      invariant 0 <= i <= |GridScales|
      invariant offset + SpanFrom(counts, i, nClasses) <= |data|
      invariant done == bboxList + DecodeScalesFrom(data, offset, counts, i, inputW as real, inputH as real, nClasses)
    {
      var scale := GridScales[i];
      var gridW := modelW / scale;
      var gridH := modelH / scale;
      var scaleX := inputW as real;
      var scaleY := inputH as real;
      SpanStep(counts, i, nClasses);
      ghost var before := bboxList;
      ghost var start := offset;
      bboxList, offset := DecodeScale(data, gridW, gridH, scaleX, scaleY, nClasses, offset, bboxList);
      ScalesStep(before, data, start, counts, i, scaleX, scaleY, nClasses);
      i := i + 1;
    }
  }
}
