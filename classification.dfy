/**
 * The generic classification helper: it takes a window of 1000 class scores
 * out of the uint8 output tensor, starting at the helper's tensor offset
 * (1 for MobileNet, whose first entry is a background class, 0 for
 * EfficientNet), and reports the first class with the highest score. Only the
 * image is published.
 */
module Classification {
  import opened Common

  /** Width of the score window. */
  const NumClasses: nat := 1000

  /**
   * std::max_element: scanning from the front, the position of the largest
   * element, keeping the earlier one on ties.
   */
  function MaxElement(s: seq<int>): (i: nat)
    requires |s| > 0
    ensures i < |s|
    ensures forall j :: 0 <= j < |s| ==> s[j] <= s[i]
    ensures forall j :: 0 <= j < i ==> s[j] < s[i]
    decreases |s|
  {
    if |s| == 1 then 0
    else
      var m := MaxElement(s[..|s| - 1]);
      if s[m] < s[|s| - 1] then |s| - 1 else m
  }

  /** What postprocess finds: the class index within the window, its score and its label. */
  datatype Result = Result(bestClass: nat, bestProb: int, className: string)

  /**
   * postprocess: the window tensor[offset .. offset + 1000), its first
   * maximum, and the label of that class counted from the window start.
   */
  function Classify(tensor: seq<int>, offset: nat, labels: seq<string>): (r: Result)
    requires offset + NumClasses <= |tensor| && NumClasses <= |labels|
    ensures r.bestClass < NumClasses && r.bestProb == tensor[offset + r.bestClass]
    ensures forall k :: offset <= k < offset + NumClasses ==> tensor[k] <= r.bestProb
    ensures forall k :: offset <= k < offset + r.bestClass ==> tensor[k] < r.bestProb
    ensures r.className == labels[r.bestClass]
  {
    var confidences := tensor[offset..offset + NumClasses];
    var best := MaxElement(confidences);
    assert forall k :: offset <= k < offset + NumClasses ==> tensor[k] == confidences[k - offset];
    Result(best, confidences[best], labels[best])
  }

  /**
   * The label is looked up relative to the window, not the tensor: with
   * offset 1 and the highest score at tensor index 1, the label reported
   * is labels[0].
   */
  lemma LabelCountsFromWindow(tensor: seq<int>, labels: seq<string>)
    requires 1 + NumClasses <= |tensor| && NumClasses <= |labels|
    requires forall k :: 2 <= k < 1 + NumClasses ==> tensor[k] < tensor[1]
    ensures Classify(tensor, 1, labels).bestClass == 0 && Classify(tensor, 1, labels).className == labels[0]
  {
    var r := Classify(tensor, 1, labels);
    assert tensor[1] <= r.bestProb;
  }

  /**
   * worker (postprocess always succeeds): the output image stamped with the
   * clock reading `now`, and nothing on the detection channel.
   */
  function ClassifierWrites(meta: FrameMeta, now: int): seq<Publish>
  {
    [Publish(ImageChannel, CameraFrame(meta.(timestampNs := now), OutputImage))]
  }

  /** A classifier publishes exactly what an object detector that found nothing publishes. */
  lemma ClassifierWritesLikeEmptyDetector(meta: FrameMeta, now: int)
    ensures ClassifierWrites(meta, now) == DetectorWrites([], meta, now)
    ensures forall p :: p in ClassifierWrites(meta, now) ==> p.channel == ImageChannel
  {
  }
}
