/**
 * The PoseNet helper: the network reports 17 keypoints (y, x, confidence,
 * relative to the input size); the helper draws the skeleton edges whose
 * two endpoints are confident enough and a dot on every confident joint,
 * then publishes only the annotated image.
 */
module PoseNet {
  import opened Common
  import ModelHelperBase

  /** Keypoints reported by the network. */
  const JointCount: nat := 17

  /** Confidence a joint needs to take part in the drawing. */
  const ConfidenceThreshold: real := 0.2

  /** Number of skeleton edges. */
  const EdgeCount: nat := 16

  /** The skeleton: face, body, arms, legs, as pairs of joint indices. */
  const JointLines: seq<(nat, nat)> := [
    (0, 2), (2, 4), (0, 1), (1, 3),
    (6, 5), (5, 11), (11, 12), (12, 6),
    (6, 8), (8, 10), (5, 7), (7, 9),
    (12, 14), (14, 16), (11, 13), (13, 15)]

  /** Every skeleton edge joins two of the 17 keypoints. */
  lemma JointLinesInRange()
    ensures |JointLines| == EdgeCount
    ensures forall e :: 0 <= e < EdgeCount ==> JointLines[e].0 < JointCount && JointLines[e].1 < JointCount
  {
  }

  /** A line drawn on the output image, from (x0, y0) to (x1, y1). */
  datatype Segment = Segment(x0: int, y0: int, x1: int, y1: int)

  /** A filled circle drawn on the output image, centred on (x, y). */
  datatype Dot = Dot(x: int, y: int)

  /**
   * The keypoint loop: joint i reads its y from tensor slot 3i, its x from
   * 3i + 1 (both scaled to the input size and cast to int) and its
   * confidence from 3i + 2.
   */
  method DecodeJoints(t: seq<real>, inputW: int, inputH: int) returns (xs: seq<int>, ys: seq<int>, confs: seq<real>)
    requires 3 * JointCount <= |t|
    ensures |xs| == JointCount && |ys| == JointCount && |confs| == JointCount
    ensures forall i :: 0 <= i < JointCount ==>
      xs[i] == Trunc(t[3 * i + 1] * inputW as real) && ys[i] == Trunc(t[3 * i] * inputH as real) &&
      confs[i] == t[3 * i + 2]
    ensures xs == Xs(t, inputW) && ys == Ys(t, inputH) && confs == Confs(t)
  {
    xs, ys, confs := [], [], [];
    var i := 0;
    while i < JointCount
      invariant 0 <= i <= JointCount
      invariant |xs| == i && |ys| == i && |confs| == i
      invariant forall k :: 0 <= k < i ==>
        xs[k] == Trunc(t[3 * k + 1] * inputW as real) && ys[k] == Trunc(t[3 * k] * inputH as real) &&
        confs[k] == t[3 * k + 2]
    {
      xs := xs + [Trunc(t[i * 3 + 1] * inputW as real)];
      ys := ys + [Trunc(t[i * 3] * inputH as real)];
      confs := confs + [t[i * 3 + 2]];
      i := i + 1;
    }
  }

  /** The x coordinate of joint i: tensor slot 3i + 1 scaled to the input width, cast to int. */
  function XAt(t: seq<real>, i: nat, inputW: int): int
    requires 3 * i + 1 < |t|
  {
    Trunc(t[3 * i + 1] * inputW as real)
  }

  /** The y coordinate of joint i: tensor slot 3i scaled to the input height, cast to int. */
  function YAt(t: seq<real>, i: nat, inputH: int): int
    requires 3 * i < |t|
  {
    Trunc(t[3 * i] * inputH as real)
  }

  /** The x coordinates of the keypoints of tensor t. */
  function Xs(t: seq<real>, inputW: int): (xs: seq<int>)
    requires 3 * JointCount <= |t|
    ensures |xs| == JointCount && forall i :: 0 <= i < JointCount ==> xs[i] == XAt(t, i, inputW)
  {
    seq(JointCount, i requires 0 <= i < JointCount => XAt(t, i, inputW))
  }

  /** The y coordinates of the keypoints of tensor t. */
  function Ys(t: seq<real>, inputH: int): (ys: seq<int>)
    requires 3 * JointCount <= |t|
    ensures |ys| == JointCount && forall i :: 0 <= i < JointCount ==> ys[i] == YAt(t, i, inputH)
  {
    seq(JointCount, i requires 0 <= i < JointCount => YAt(t, i, inputH))
  }

  /** The confidences of the keypoints of tensor t. */
  function Confs(t: seq<real>): (confs: seq<real>)
    requires 3 * JointCount <= |t|
    ensures |confs| == JointCount && forall i :: 0 <= i < JointCount ==> confs[i] == t[3 * i + 2]
  {
    seq(JointCount, i requires 0 <= i < JointCount => t[3 * i + 2])
  }

  /** Edge e is drawn: both of its endpoints are at least as confident as the threshold. */
  predicate EdgeConfident(confs: seq<real>, e: nat)
    requires |confs| == JointCount && e < EdgeCount
  {
    JointLinesInRange();
    confs[JointLines[e].0] >= ConfidenceThreshold && confs[JointLines[e].1] >= ConfidenceThreshold
  }

  /** The indices of the drawn edges among the first n, in skeleton order. */
  function DrawnEdges(confs: seq<real>, n: nat): (es: seq<nat>)
    requires |confs| == JointCount && n <= EdgeCount
    ensures |es| <= n
    ensures forall k :: 0 <= k < |es| ==> es[k] < n
  {
    if n == 0 then [] else DrawnEdges(confs, n - 1) + (if EdgeConfident(confs, n - 1) then [n - 1] else [])
  }

  /** An edge is in the drawn list exactly when it is confident. */
  lemma {:induction false} DrawnEdgesExactly(confs: seq<real>, n: nat, e: nat)
    requires |confs| == JointCount && n <= EdgeCount
    ensures e in DrawnEdges(confs, n) <==> e < n && EdgeConfident(confs, e)
  {
    if n > 0 {
      DrawnEdgesExactly(confs, n - 1, e);
      assert e < n - 1 ==> e != n - 1;
    }
  }

  /** Joint i gets a dot: its confidence is strictly above the threshold. */
  predicate JointConfident(confs: seq<real>, i: nat)
    requires |confs| == JointCount && i < JointCount
  {
    confs[i] > ConfidenceThreshold
  }

  /** The indices of the dotted joints among the first n, in joint order. */
  function DottedJoints(confs: seq<real>, n: nat): (js: seq<nat>)
    requires |confs| == JointCount && n <= JointCount
    ensures |js| <= n
    ensures forall k :: 0 <= k < |js| ==> js[k] < n
  {
    if n == 0 then [] else DottedJoints(confs, n - 1) + (if JointConfident(confs, n - 1) then [n - 1] else [])
  }

  /** A joint is in the dotted list exactly when it is confident. */
  lemma {:induction false} DottedJointsExactly(confs: seq<real>, n: nat, i: nat)
    requires |confs| == JointCount && n <= JointCount
    ensures i in DottedJoints(confs, n) <==> i < n && JointConfident(confs, i)
  {
    if n > 0 {
      DottedJointsExactly(confs, n - 1, i);
      assert i < n - 1 ==> i != n - 1;
    }
  }

  /** No joint at or below the threshold gets a dot. */
  lemma {:induction false} NoDotsAtThreshold(confs: seq<real>, n: nat)
    requires |confs| == JointCount && n <= JointCount
    requires forall i :: 0 <= i < JointCount ==> confs[i] <= ConfidenceThreshold
    ensures DottedJoints(confs, n) == []
  {
    if n > 0 {
      NoDotsAtThreshold(confs, n - 1);
    }
  }

  /** The line of edge e, between the decoded positions of its endpoints. */
  function SegmentOf(xs: seq<int>, ys: seq<int>, e: nat): Segment
    requires |xs| == JointCount && |ys| == JointCount && e < EdgeCount
  {
    JointLinesInRange();
    var edge := JointLines[e];
    Segment(xs[edge.0], ys[edge.0], xs[edge.1], ys[edge.1])
  }

  /** The lines of the listed edges, in list order. */
  function SegmentsOf(xs: seq<int>, ys: seq<int>, es: seq<nat>): (ss: seq<Segment>)
    requires |xs| == JointCount && |ys| == JointCount && forall k :: 0 <= k < |es| ==> es[k] < EdgeCount
    ensures |ss| == |es|
    ensures forall k :: 0 <= k < |es| ==> ss[k] == SegmentOf(xs, ys, es[k])
  {
    if es == [] then [] else SegmentsOf(xs, ys, es[..|es| - 1]) + [SegmentOf(xs, ys, es[|es| - 1])]
  }

  /** The dots of the listed joints, in list order. */
  function DotsOf(xs: seq<int>, ys: seq<int>, js: seq<nat>): (ds: seq<Dot>)
    requires |xs| == JointCount && |ys| == JointCount && forall k :: 0 <= k < |js| ==> js[k] < JointCount
    ensures |ds| == |js|
    ensures forall k :: 0 <= k < |js| ==> ds[k] == Dot(xs[js[k]], ys[js[k]])
  {
    if js == [] then [] else DotsOf(xs, ys, js[..|js| - 1]) + [Dot(xs[js[|js| - 1]], ys[js[|js| - 1]])]
  }

  /** Considering one more edge adds its line exactly when it is confident. */
  lemma LinesStep(xs: seq<int>, ys: seq<int>, confs: seq<real>, e: nat)
    requires |xs| == JointCount && |ys| == JointCount && |confs| == JointCount && e < EdgeCount
    ensures SegmentsOf(xs, ys, DrawnEdges(confs, e + 1)) ==
              SegmentsOf(xs, ys, DrawnEdges(confs, e)) + (if EdgeConfident(confs, e) then [SegmentOf(xs, ys, e)] else [])
  {
    var es := DrawnEdges(confs, e);
    if EdgeConfident(confs, e) {
      assert (es + [e])[..|es|] == es;
    }
  }

  /** Considering one more joint adds its dot exactly when it is confident. */
  lemma DotsStep(xs: seq<int>, ys: seq<int>, confs: seq<real>, i: nat)
    requires |xs| == JointCount && |ys| == JointCount && |confs| == JointCount && i < JointCount
    ensures DotsOf(xs, ys, DottedJoints(confs, i + 1)) ==
              DotsOf(xs, ys, DottedJoints(confs, i)) + (if JointConfident(confs, i) then [Dot(xs[i], ys[i])] else [])
  {
    var js := DottedJoints(confs, i);
    if JointConfident(confs, i) {
      assert (js + [i])[..|js|] == js;
    }
  }

  /** The edge loop: every confident edge adds its line, in skeleton order. */
  method DrawLines(xs: seq<int>, ys: seq<int>, confs: seq<real>) returns (lines: seq<Segment>)
    requires |xs| == JointCount && |ys| == JointCount && |confs| == JointCount
    ensures lines == SegmentsOf(xs, ys, DrawnEdges(confs, EdgeCount))
  {
    lines := [];
    var e := 0;
    while e < EdgeCount
      invariant 0 <= e <= EdgeCount
      invariant lines == SegmentsOf(xs, ys, DrawnEdges(confs, e))
    {
      lines := DrawEdge(xs, ys, confs, lines, e);
      e := e + 1;
    }
  }

  /** One turn of the edge loop: the line of edge e is added when both of its ends are confident. */
  method DrawEdge(xs: seq<int>, ys: seq<int>, confs: seq<real>, lines: seq<Segment>, e: nat) returns (lines': seq<Segment>)
    requires |xs| == JointCount && |ys| == JointCount && |confs| == JointCount && e < EdgeCount
    requires lines == SegmentsOf(xs, ys, DrawnEdges(confs, e))
    ensures lines' == SegmentsOf(xs, ys, DrawnEdges(confs, e + 1))
  {
    JointLinesInRange();
    LinesStep(xs, ys, confs, e);
    var edge := JointLines[e];
    var first := edge.0;
    var second := edge.1;
    lines' := lines;
    if confs[first] >= ConfidenceThreshold && confs[second] >= ConfidenceThreshold {
      lines' := lines + [Segment(xs[first], ys[first], xs[second], ys[second])];
      assert lines' == lines + [SegmentOf(xs, ys, e)];
    }
  }

  /** The keypoint loop: every confident joint adds its dot, in joint order. */
  method DrawDots(xs: seq<int>, ys: seq<int>, confs: seq<real>) returns (dots: seq<Dot>)
    requires |xs| == JointCount && |ys| == JointCount && |confs| == JointCount
    ensures dots == DotsOf(xs, ys, DottedJoints(confs, JointCount))
  {
    dots := [];
    var i := 0;
    while i < |xs|
      invariant 0 <= i <= JointCount
      invariant dots == DotsOf(xs, ys, DottedJoints(confs, i))
    {
      dots := DrawJoint(xs, ys, confs, dots, i);
      i := i + 1;
    }
  }

  /** One turn of the keypoint loop: joint i gets its dot when it is confident. */
  method DrawJoint(xs: seq<int>, ys: seq<int>, confs: seq<real>, dots: seq<Dot>, i: nat) returns (dots': seq<Dot>)
    requires |xs| == JointCount && |ys| == JointCount && |confs| == JointCount && i < JointCount
    requires dots == DotsOf(xs, ys, DottedJoints(confs, i))
    ensures dots' == DotsOf(xs, ys, DottedJoints(confs, i + 1))
  {
    DotsStep(xs, ys, confs, i);
    dots' := dots;
    if confs[i] > ConfidenceThreshold {
      dots' := dots + [Dot(xs[i], ys[i])];
    }
  }

  /** When every joint reaches the threshold, the whole skeleton is drawn. */
  lemma AllConfidentDrawsSkeleton(confs: seq<real>)
    requires |confs| == JointCount && forall i :: 0 <= i < JointCount ==> confs[i] >= ConfidenceThreshold
    ensures forall e :: 0 <= e < EdgeCount ==> e in DrawnEdges(confs, EdgeCount)
  {
    JointLinesInRange();
    forall e | 0 <= e < EdgeCount
      ensures e in DrawnEdges(confs, EdgeCount)
    {
      DrawnEdgesExactly(confs, EdgeCount, e);
    }
  }

  /** An edge between two dotted joints is always drawn. */
  lemma DottedEndsDrawEdge(confs: seq<real>, e: nat)
    requires |confs| == JointCount && e < EdgeCount
    requires JointLines[e].0 in DottedJoints(confs, JointCount) && JointLines[e].1 in DottedJoints(confs, JointCount)
    ensures e in DrawnEdges(confs, EdgeCount)
  {
    JointLinesInRange();
    DottedJointsExactly(confs, JointCount, JointLines[e].0);
    DottedJointsExactly(confs, JointCount, JointLines[e].1);
    DrawnEdgesExactly(confs, EdgeCount, e);
  }

  /**
   * The two thresholds differ: with every confidence exactly 0.2 the whole
   * skeleton is drawn but no joint gets a dot.
   */
  lemma ThresholdJointsDrawEdgesWithoutDots()
    ensures var confs := seq(JointCount, i => ConfidenceThreshold);
            0 in DrawnEdges(confs, EdgeCount) && DottedJoints(confs, JointCount) == []
  {
    var confs := seq(JointCount, i => ConfidenceThreshold);
    DrawnEdgesExactly(confs, EdgeCount, 0);
    NoDotsAtThreshold(confs, JointCount);
  }

  /** The PoseNet helper owns only the base helper's state. */
  class PoseNetHelper {
    const base: ModelHelperBase.ModelHelper

    constructor (base: ModelHelperBase.ModelHelper)
      ensures this.base == base
    {
      this.base := base;
    }

    /**
     * postprocess: decode the joints of the pose tensor `t` and return the
     * lines and dots it draws on the output image; it always succeeds.
     */
    method Postprocess(t: seq<real>) returns (ok: bool, lines: seq<Segment>, dots: seq<Dot>)
      requires 3 * JointCount <= |t|
      ensures ok
      ensures lines == SegmentsOf(Xs(t, base.inputWidth), Ys(t, base.inputHeight), DrawnEdges(Confs(t), EdgeCount))
      ensures dots == DotsOf(Xs(t, base.inputWidth), Ys(t, base.inputHeight), DottedJoints(Confs(t), JointCount))
    {
      var xs, ys, confs := DecodeJoints(t, base.inputWidth, base.inputHeight);
      lines := DrawLines(xs, ys, confs);
      dots := DrawDots(xs, ys, confs);
      ok := true;
    }

    /** worker: postprocess, then publish the output image stamped with the clock reading `clock`. */
    method Worker(t: seq<real>, meta: FrameMeta, clock: int, outbox: Outbox)
      returns (ok: bool, lines: seq<Segment>, dots: seq<Dot>)
      requires 3 * JointCount <= |t|
      modifies outbox
      ensures ok
      ensures lines == SegmentsOf(Xs(t, base.inputWidth), Ys(t, base.inputHeight), DrawnEdges(Confs(t), EdgeCount))
      ensures dots == DotsOf(Xs(t, base.inputWidth), Ys(t, base.inputHeight), DottedJoints(Confs(t), JointCount))
      ensures outbox.entries == old(outbox.entries) + [Publish(ImageChannel, CameraFrame(meta.(timestampNs := clock), OutputImage))]
    {
      ok, lines, dots := Postprocess(t);
      outbox.Write(Publish(ImageChannel, CameraFrame(meta.(timestampNs := clock), OutputImage)));
    }
  }
}
