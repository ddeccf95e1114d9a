/**
 * YOLOv5 non-max suppression: the candidate boxes are sorted by
 * non-increasing score, then walked from the best down; each box not yet
 * merged is kept and marks as merged every later, unmerged box whose
 * intersection-over-union with it exceeds the threshold (optionally only
 * boxes of its own class). The intersection-over-union is computed on the
 * integer box corners.
 */
module YoloV5Nms {
  import opened YoloV5Decode

  // ------------------------------------------------------------ sorting

  /** Scores never increase along the list. */
  predicate ScoreSorted(s: seq<BBox>)
  {
    forall i, j :: 0 <= i < j < |s| ==> s[i].score >= s[j].score
  }

  /** Put `b` in front of the first box of `s` whose score does not exceed its own. */
  function InsertByScore(b: BBox, s: seq<BBox>): (r: seq<BBox>)
    ensures multiset(r) == multiset(s) + multiset{b}
    decreases |s|
  {
    if s == [] || b.score >= s[0].score then [b] + s
    else
      assert s == [s[0]] + s[1..];
      [s[0]] + InsertByScore(b, s[1..])
  }

  /**
   * The in-place std::sort with the comparator lhs.score > rhs.score. Boxes
   * of equal score may come out in any order there; this is one of those
   * orders.
   */
  function SortByScore(s: seq<BBox>): (r: seq<BBox>)
    ensures multiset(r) == multiset(s)
  {
    if s == [] then []
    else
      assert s == [s[0]] + s[1..];
      InsertByScore(s[0], SortByScore(s[1..]))
  }

  lemma SortedCons(x: BBox, k: seq<BBox>)
    requires ScoreSorted(k)
    requires forall p :: 0 <= p < |k| ==> x.score >= k[p].score
    ensures ScoreSorted([x] + k)
  {
    var k' := [x] + k;
    forall p, q | 0 <= p < q < |k'|
      ensures k'[p].score >= k'[q].score
    {
      assert k'[q] == k[q - 1];
      if p > 0 {
        assert k'[p] == k[p - 1];
      }
    }
  }

  lemma {:induction false} InsertKeepsSorted(b: BBox, s: seq<BBox>)
    requires ScoreSorted(s)
    ensures ScoreSorted(InsertByScore(b, s))
    decreases |s|
  {
    if s == [] || b.score >= s[0].score {
      SortedCons(b, s);
    } else {
      InsertKeepsSorted(b, s[1..]);
      var r := InsertByScore(b, s[1..]);
      forall p | 0 <= p < |r|
        ensures s[0].score >= r[p].score
      {
        assert r[p] in multiset(r);
        if r[p] != b {
          assert r[p] in multiset(s[1..]);
          var k :| 0 <= k < |s[1..]| && s[1..][k] == r[p];
          assert s[k + 1] == r[p];
        }
      }
      SortedCons(s[0], r);
    }
  }

  /** The sort yields a permutation of its input with non-increasing scores. */
  lemma {:induction false} SortByScoreSorts(s: seq<BBox>)
    ensures ScoreSorted(SortByScore(s)) && multiset(SortByScore(s)) == multiset(s)
    ensures |SortByScore(s)| == |s|
  {
    if s != [] {
      SortByScoreSorts(s[1..]);
      InsertKeepsSorted(s[0], SortByScore(s[1..]));
    }
    assert |multiset(SortByScore(s))| == |multiset(s)|;
  }

  /** A list already in score order is left as it is. */
  lemma {:induction false} SortedIsFixed(s: seq<BBox>)
    requires ScoreSorted(s)
    ensures SortByScore(s) == s
  {
    if s != [] {
      assert ScoreSorted(s[1..]);
      SortedIsFixed(s[1..]);
      assert s == [s[0]] + s[1..];
    }
  }

  // ------------------------------------------------------------ intersection-over-union

  function Max(a: int, b: int): int { if a >= b then a else b }
  function Min(a: int, b: int): int { if a <= b then a else b }

  /** The intersection of the two boxes is empty along x or along y. */
  predicate Disjoint(a: BBox, b: BBox)
  {
    Min(a.x + a.w, b.x + b.w) < Max(a.x, b.x) || Min(a.y + a.h, b.y + b.h) < Max(a.y, b.y)
  }

  /** Area of the intersection rectangle. */
  function InterArea(a: BBox, b: BBox): int
  {
    (Min(a.x + a.w, b.x + b.w) - Max(a.x, b.x)) * (Min(a.y + a.h, b.y + b.h) - Max(a.y, b.y))
  }

  /** Area of the union: both areas less the intersection. */
  function AreaSum(a: BBox, b: BBox): int
  {
    a.w * a.h + b.w * b.h - InterArea(a, b)
  }

  /**
   * calc_iou: 0 for disjoint boxes, otherwise the intersection area over
   * the union area. A zero union area of overlapping boxes divides by zero
   * and is excluded.
   */
  function CalcIou(a: BBox, b: BBox): (r: real)
    requires Disjoint(a, b) || AreaSum(a, b) != 0
    ensures Disjoint(a, b) ==> r == 0.0
  {
    if Disjoint(a, b) then 0.0 else InterArea(a, b) as real / AreaSum(a, b) as real
  }

  lemma MulMono(a: int, b: int, c: int, d: int)
    requires 0 <= a <= b && 0 <= c <= d
    ensures 0 <= a * c <= b * d
  {
    assert a * c <= b * c;
    assert b * c <= b * d;
  }

  /**
   * Overlapping boxes have non-negative sides, and their intersection is
   * no larger than either box; so the union area is at least each box's area.
   */
  lemma OverlapBounds(a: BBox, b: BBox)
    requires !Disjoint(a, b)
    ensures a.w >= 0 && a.h >= 0 && b.w >= 0 && b.h >= 0
    ensures 0 <= InterArea(a, b) <= a.w * a.h && InterArea(a, b) <= b.w * b.h
    ensures AreaSum(a, b) >= a.w * a.h && AreaSum(a, b) >= b.w * b.h && AreaSum(a, b) >= InterArea(a, b)
  {
    var dx := Min(a.x + a.w, b.x + b.w) - Max(a.x, b.x);
    var dy := Min(a.y + a.h, b.y + b.h) - Max(a.y, b.y);
    MulMono(dx, a.w, dy, a.h);
    MulMono(dx, b.w, dy, b.h);
  }

  /** calc_iou does not depend on the order of its arguments. */
  lemma CalcIouSymmetric(a: BBox, b: BBox)
    requires Disjoint(a, b) || AreaSum(a, b) != 0
    ensures Disjoint(b, a) == Disjoint(a, b) && AreaSum(b, a) == AreaSum(a, b)
    ensures CalcIou(b, a) == CalcIou(a, b)
  {
    assert InterArea(b, a) == InterArea(a, b);
  }

  /** Whenever it is defined, calc_iou lies between 0 and 1. */
  lemma CalcIouInUnit(a: BBox, b: BBox)
    requires Disjoint(a, b) || AreaSum(a, b) != 0
    ensures 0.0 <= CalcIou(a, b) <= 1.0
  {
    if !Disjoint(a, b) {
      OverlapBounds(a, b);
      RatioInUnit(InterArea(a, b) as real, AreaSum(a, b) as real);
    }
  }

  lemma RatioInUnit(p: real, q: real)
    requires 0.0 <= p <= q && q != 0.0
    ensures 0.0 <= p / q <= 1.0
  {
    var r := p / q;
    assert r * q == p;
    assert (1.0 - r) * q == q - p;
  }

  /** A box of positive width and height overlaps itself completely. */
  lemma CalcIouIdentical(a: BBox)
    requires a.w > 0 && a.h > 0
    ensures !Disjoint(a, a) && AreaSum(a, a) == a.w * a.h > 0
    ensures CalcIou(a, a) == 1.0
  {
    MulMono(1, a.w, 1, a.h);
    var area := a.w * a.h;
    assert InterArea(a, a) == area && AreaSum(a, a) == area;
    assert area as real / area as real == 1.0;
  }

  /**
   * The only overlapping pairs with a zero union area are pairs of empty
   * boxes with an empty intersection: calc_iou then computes 0 / 0.
   */
  lemma ZeroUnionIsEmpty(a: BBox, b: BBox)
    requires !Disjoint(a, b) && AreaSum(a, b) == 0
    ensures InterArea(a, b) == 0 && a.w * a.h == 0 && b.w * b.h == 0
  {
    OverlapBounds(a, b);
  }

  /**
   * calc_iou(a, b) > thr as the suppression loop evaluates it. For the
   * 0 / 0 case the float division gives NaN, and NaN exceeds no threshold.
   */
  predicate IouExceeds(a: BBox, b: BBox, thr: real)
  {
    if Disjoint(a, b) || AreaSum(a, b) != 0 then CalcIou(a, b) > thr else false
  }

  // ------------------------------------------------------------ suppression

  /** Box `hi` merges box `lo`: same class if classes are checked, and IoU above the threshold. */
  predicate Suppresses(hi: BBox, lo: BBox, thr: real, checkClass: bool)
  {
    !(checkClass && hi.classId != lo.classId) && IouExceeds(hi, lo, thr)
  }

  /**
   * is_merged[j] once the outer loop has handled positions 0 .. hi - 1:
   * position hi - 1, when it was not merged itself, merges every later
   * position it suppresses.
   */
  predicate MergedBefore(s: seq<BBox>, j: nat, hi: nat, thr: real, checkClass: bool)
    requires j < |s| && hi <= |s|
    decreases hi, 1
  {
    hi > 0 && MergedAt(s, j, hi, thr, checkClass)
  }

  /** is_merged[j] after the outer loop has handled position hi - 1 as well. */
  predicate MergedAt(s: seq<BBox>, j: nat, hi: nat, thr: real, checkClass: bool)
    requires j < |s| && 0 < hi <= |s|
    decreases hi, 0
  {
    MergedBefore(s, j, hi - 1, thr, checkClass) ||
    (hi - 1 < j && !MergedBefore(s, hi - 1, hi - 1, thr, checkClass) &&
     Suppresses(s[hi - 1], s[j], thr, checkClass))
  }

  /** Position i survives: nothing merged it before the outer loop reached it. */
  predicate Kept(s: seq<BBox>, i: nat, thr: real, checkClass: bool)
    requires i < |s|
  {
    !MergedBefore(s, i, i, thr, checkClass)
  }

  /** The boxes the outer loop pushed while handling positions 0 .. n - 1. */
  function KeptUpTo(s: seq<BBox>, n: nat, thr: real, checkClass: bool): (r: seq<BBox>)
    requires n <= |s|
    ensures |r| <= n
  {
    if n == 0 then []
    else KeptUpTo(s, n - 1, thr, checkClass) + (if Kept(s, n - 1, thr, checkClass) then [s[n - 1]] else [])
  }

  /** The result of nms on a candidate list. */
  function NmsResult(boxes: seq<BBox>, thr: real, checkClass: bool): seq<BBox>
  {
    var s := SortByScore(boxes);
    KeptUpTo(s, |s|, thr, checkClass)
  }

  /**
   * Handling one more position: a merged position changes no flag and
   * pushes nothing; an unmerged one is pushed.
   */
  lemma SweepStep(s: seq<BBox>, hi: nat, thr: real, checkClass: bool)
    requires hi < |s|
    ensures !Kept(s, hi, thr, checkClass) ==>
              forall j :: 0 <= j < |s| ==> MergedBefore(s, j, hi + 1, thr, checkClass) == MergedBefore(s, j, hi, thr, checkClass)
    ensures KeptUpTo(s, hi + 1, thr, checkClass) ==
              KeptUpTo(s, hi, thr, checkClass) + (if Kept(s, hi, thr, checkClass) then [s[hi]] else [])
  {
  }

  /**
   * nms: sort the candidates (the caller's list is sorted in place, which
   * `sorted` returns), then run the is_merged sweep.
   */
  method Nms(bboxList: seq<BBox>, thr: real, checkClass: bool) returns (sorted: seq<BBox>, kept: seq<BBox>)
    ensures sorted == SortByScore(bboxList)
    ensures kept == KeptUpTo(sorted, |sorted|, thr, checkClass)
  {
    sorted := SortByScore(bboxList);
    var n := |sorted|;
    var isMerged := new bool[n];
    for i := 0 to n
      invariant forall j :: 0 <= j < i ==> !isMerged[j]
    {
      isMerged[i] := false;
    }
    kept := [];
    for hi := 0 to n
      invariant forall j :: 0 <= j < n ==> isMerged[j] == MergedBefore(sorted, j, hi, thr, checkClass)
      invariant kept == KeptUpTo(sorted, hi, thr, checkClass)
    {
      SweepStep(sorted, hi, thr, checkClass);
      if isMerged[hi] {
        continue;
      }
      var candidates := MergeLower(sorted, hi, isMerged, thr, checkClass);
      kept := kept + [candidates[0]];
    }
  }

  /**
   * The inner loop of nms for the unmerged position `hi`: every later
   * unmerged position that `hi` suppresses is merged and joins the
   * candidates, which start with box `hi`.
   */
  method MergeLower(sorted: seq<BBox>, hi: nat, isMerged: array<bool>, thr: real, checkClass: bool)
    returns (candidates: seq<BBox>)
    requires hi < |sorted| == isMerged.Length
    requires forall j :: 0 <= j < |sorted| ==> isMerged[j] == MergedBefore(sorted, j, hi, thr, checkClass)
    requires !isMerged[hi]
    modifies isMerged
    ensures forall j :: 0 <= j < |sorted| ==> isMerged[j] == MergedBefore(sorted, j, hi + 1, thr, checkClass)
    ensures |candidates| >= 1 && candidates[0] == sorted[hi]
  {
    var n := |sorted|;
    candidates := [sorted[hi]];
    for lo := hi + 1 to n
      invariant forall j :: 0 <= j < n ==>
                  isMerged[j] == if hi < j < lo then MergedBefore(sorted, j, hi + 1, thr, checkClass)
                                 else MergedBefore(sorted, j, hi, thr, checkClass)
      invariant |candidates| >= 1 && candidates[0] == sorted[hi]
    {
      if isMerged[lo] {
        continue;
      }
      if checkClass && sorted[hi].classId != sorted[lo].classId {
        continue;
      }
      if IouExceeds(sorted[hi], sorted[lo], thr) {
        candidates := candidates + [sorted[lo]];
        isMerged[lo] := true;
      }
    }
  }

  // ------------------------------------------------------------ what the sweep guarantees

  /** Once merged, a position stays merged. */
  lemma {:induction false} MergedStays(s: seq<BBox>, j: nat, h1: nat, h2: nat, thr: real, checkClass: bool)
    requires j < |s| && h1 <= h2 <= |s|
    requires MergedBefore(s, j, h1, thr, checkClass)
    ensures MergedBefore(s, j, h2, thr, checkClass)
    decreases h2
  {
    if h1 < h2 {
      MergedStays(s, j, h1, h2 - 1, thr, checkClass);
    }
  }

  /** A kept box never suppresses a later kept box. */
  lemma KeptPairNotSuppressed(s: seq<BBox>, i: nat, j: nat, thr: real, checkClass: bool)
    requires i < j < |s| && Kept(s, i, thr, checkClass) && Kept(s, j, thr, checkClass)
    ensures !Suppresses(s[i], s[j], thr, checkClass)
  {
    if Suppresses(s[i], s[j], thr, checkClass) {
      assert MergedBefore(s, j, i + 1, thr, checkClass);
      MergedStays(s, j, i + 1, j, thr, checkClass);
      assert false;
    }
  }

  /** A merged position was merged by an earlier kept position that suppresses it. */
  lemma {:induction false} MergedHasWitness(s: seq<BBox>, j: nat, hi: nat, thr: real, checkClass: bool)
    requires j < |s| && hi <= |s| && MergedBefore(s, j, hi, thr, checkClass)
    ensures exists i :: 0 <= i < hi && i < j && Kept(s, i, thr, checkClass) && Suppresses(s[i], s[j], thr, checkClass)
    decreases hi
  {
    if MergedBefore(s, j, hi - 1, thr, checkClass) {
      MergedHasWitness(s, j, hi - 1, thr, checkClass);
    } else {
      assert Kept(s, hi - 1, thr, checkClass);
    }
  }

  /** Every dropped box is suppressed by an earlier kept box. */
  lemma DroppedHasSuppressor(s: seq<BBox>, j: nat, thr: real, checkClass: bool)
    requires j < |s| && !Kept(s, j, thr, checkClass)
    ensures exists i :: 0 <= i < j && Kept(s, i, thr, checkClass) && Suppresses(s[i], s[j], thr, checkClass)
  {
    MergedHasWitness(s, j, j, thr, checkClass);
  }

  /** Every box in the output comes from a kept position below n. */
  lemma {:induction false} KeptUpToMembers(s: seq<BBox>, n: nat, thr: real, checkClass: bool)
    requires n <= |s|
    ensures forall x :: x in KeptUpTo(s, n, thr, checkClass) ==>
              exists i :: 0 <= i < n && Kept(s, i, thr, checkClass) && s[i] == x
  {
    if n > 0 {
      KeptUpToMembers(s, n - 1, thr, checkClass);
    }
  }

  /** No box of `k` suppresses a box that follows it in `k`. */
  predicate NoLaterSuppressed(k: seq<BBox>, thr: real, checkClass: bool)
  {
    forall p, q :: 0 <= p < q < |k| ==> !Suppresses(k[p], k[q], thr, checkClass)
  }

  lemma NoLaterSuppressedSnoc(k: seq<BBox>, x: BBox, thr: real, checkClass: bool)
    requires NoLaterSuppressed(k, thr, checkClass)
    requires forall p :: 0 <= p < |k| ==> !Suppresses(k[p], x, thr, checkClass)
    ensures NoLaterSuppressed(k + [x], thr, checkClass)
  {
    var k' := k + [x];
    forall p, q | 0 <= p < q < |k'|
      ensures !Suppresses(k'[p], k'[q], thr, checkClass)
    {
      assert k'[p] == k[p];
      if q < |k| {
        assert k'[q] == k[q];
      }
    }
  }

  /** No box of the output suppresses a box that follows it in the output. */
  lemma {:induction false} KeptUpToPairwise(s: seq<BBox>, n: nat, thr: real, checkClass: bool)
    requires n <= |s|
    ensures NoLaterSuppressed(KeptUpTo(s, n, thr, checkClass), thr, checkClass)
  {
    if n > 0 {
      KeptUpToPairwise(s, n - 1, thr, checkClass);
      var prev := KeptUpTo(s, n - 1, thr, checkClass);
      if Kept(s, n - 1, thr, checkClass) {
        KeptUpToMembers(s, n - 1, thr, checkClass);
        forall p | 0 <= p < |prev|
          ensures !Suppresses(prev[p], s[n - 1], thr, checkClass)
        {
          assert prev[p] in prev;
          var i :| 0 <= i < n - 1 && Kept(s, i, thr, checkClass) && s[i] == prev[p];
          KeptPairNotSuppressed(s, i, n - 1, thr, checkClass);
        }
        NoLaterSuppressedSnoc(prev, s[n - 1], thr, checkClass);
      }
    }
  }

  lemma SortedSnoc(k: seq<BBox>, x: BBox)
    requires ScoreSorted(k)
    requires forall p :: 0 <= p < |k| ==> k[p].score >= x.score
    ensures ScoreSorted(k + [x])
  {
    var k' := k + [x];
    forall p, q | 0 <= p < q < |k'|
      ensures k'[p].score >= k'[q].score
    {
      assert k'[p] == k[p];
      if q < |k| {
        assert k'[q] == k[q];
      }
    }
  }

  /** The output is in score order whenever the sorted list is. */
  lemma {:induction false} KeptUpToSorted(s: seq<BBox>, n: nat, thr: real, checkClass: bool)
    requires n <= |s| && ScoreSorted(s)
    ensures ScoreSorted(KeptUpTo(s, n, thr, checkClass))
  {
    if n > 0 {
      KeptUpToSorted(s, n - 1, thr, checkClass);
      var prev := KeptUpTo(s, n - 1, thr, checkClass);
      if Kept(s, n - 1, thr, checkClass) {
        KeptUpToMembers(s, n - 1, thr, checkClass);
        forall p | 0 <= p < |prev|
          ensures prev[p].score >= s[n - 1].score
        {
          assert prev[p] in prev;
          var i :| 0 <= i < n - 1 && Kept(s, i, thr, checkClass) && s[i] == prev[p];
        }
        SortedSnoc(prev, s[n - 1]);
      }
    }
  }

  /** A subsequence takes each box at most as often as the sequence holds it. */
  lemma {:induction false} SubsequenceMultiset(k: seq<BBox>, s: seq<BBox>)
    requires Subsequence(k, s)
    ensures multiset(k) <= multiset(s)
    decreases |s|
  {
    if k != [] {
      var s' := s[..|s| - 1];
      assert s == s' + [s[|s| - 1]];
      if k[|k| - 1] == s[|s| - 1] && Subsequence(k[..|k| - 1], s') {
        SubsequenceMultiset(k[..|k| - 1], s');
        assert k == k[..|k| - 1] + [k[|k| - 1]];
      } else {
        SubsequenceMultiset(k, s');
      }
    }
  }

  /** `k` can be obtained from `s` by deleting elements. */
  predicate Subsequence(k: seq<BBox>, s: seq<BBox>)
    decreases |s|
  {
    k == [] ||
    (s != [] &&
     ((k[|k| - 1] == s[|s| - 1] && Subsequence(k[..|k| - 1], s[..|s| - 1])) ||
      Subsequence(k, s[..|s| - 1])))
  }

  lemma {:induction false} KeptUpToIsSubsequence(s: seq<BBox>, n: nat, thr: real, checkClass: bool)
    requires n <= |s|
    ensures Subsequence(KeptUpTo(s, n, thr, checkClass), s[..n])
  {
    if n > 0 {
      KeptUpToIsSubsequence(s, n - 1, thr, checkClass);
      var prev := KeptUpTo(s, n - 1, thr, checkClass);
      assert s[..n][..n - 1] == s[..n - 1];
      var sn := s[..n];
      assert sn[..|sn| - 1] == s[..n - 1] && sn[|sn| - 1] == s[n - 1];
      if Kept(s, n - 1, thr, checkClass) {
        var k := prev + [s[n - 1]];
        assert KeptUpTo(s, n, thr, checkClass) == k;
        assert k[..|k| - 1] == prev && k[|k| - 1] == s[n - 1];
      } else {
        assert KeptUpTo(s, n, thr, checkClass) == prev;
      }
    }
  }

  /** The first position is always kept, so the output starts with the top-scoring box. */
  lemma {:induction false} KeptUpToStartsWithTop(s: seq<BBox>, n: nat, thr: real, checkClass: bool)
    requires 0 < n <= |s|
    ensures |KeptUpTo(s, n, thr, checkClass)| > 0 && KeptUpTo(s, n, thr, checkClass)[0] == s[0]
  {
    if n > 1 {
      KeptUpToStartsWithTop(s, n - 1, thr, checkClass);
    } else {
      assert Kept(s, 0, thr, checkClass);
    }
  }

  /** In a list where no box suppresses a later one, nothing is ever merged. */
  lemma {:induction false} NothingMerged(t: seq<BBox>, j: nat, hi: nat, thr: real, checkClass: bool)
    requires j < |t| && hi <= |t|
    requires NoLaterSuppressed(t, thr, checkClass)
    ensures !MergedBefore(t, j, hi, thr, checkClass)
    decreases hi
  {
    if hi > 0 {
      NothingMerged(t, j, hi - 1, thr, checkClass);
    }
  }

  lemma {:induction false} AllKept(t: seq<BBox>, n: nat, thr: real, checkClass: bool)
    requires n <= |t|
    requires NoLaterSuppressed(t, thr, checkClass)
    ensures KeptUpTo(t, n, thr, checkClass) == t[..n]
  {
    if n > 0 {
      AllKept(t, n - 1, thr, checkClass);
      NothingMerged(t, n - 1, n - 1, thr, checkClass);
      assert t[..n] == t[..n - 1] + [t[n - 1]];
    }
  }

  /**
   * What nms promises about its output: it is a subsequence of the sorted
   * candidates, in score order, starting with the top box when there is
   * one, and no output box suppresses a later one.
   */
  lemma NmsOutput(boxes: seq<BBox>, thr: real, checkClass: bool)
    ensures var s := SortByScore(boxes);
      var k := NmsResult(boxes, thr, checkClass);
      Subsequence(k, s) && ScoreSorted(k) && multiset(k) <= multiset(boxes) &&
      (boxes != [] ==> |k| > 0 && k[0] == s[0]) &&
      NoLaterSuppressed(k, thr, checkClass)
  {
    var s := SortByScore(boxes);
    SortByScoreSorts(boxes);
    assert s[..|s|] == s;
    KeptUpToIsSubsequence(s, |s|, thr, checkClass);
    KeptUpToSorted(s, |s|, thr, checkClass);
    SubsequenceMultiset(NmsResult(boxes, thr, checkClass), s);
    KeptUpToPairwise(s, |s|, thr, checkClass);
    if boxes != [] {
      KeptUpToStartsWithTop(s, |s|, thr, checkClass);
    }
  }

  /** Running nms on its own output drops nothing and changes nothing. */
  lemma NmsIdempotent(boxes: seq<BBox>, thr: real, checkClass: bool)
    ensures NmsResult(NmsResult(boxes, thr, checkClass), thr, checkClass) == NmsResult(boxes, thr, checkClass)
  {
    var k := NmsResult(boxes, thr, checkClass);
    NmsOutput(boxes, thr, checkClass);
    SortedIsFixed(k);
    AllKept(k, |k|, thr, checkClass);
    assert k[..|k|] == k;
  }

  /** Two boxes of one row: [0, 3) and [1, 4), overlapping on [1, 3). */
  const HalfA := BBox(0, 0.5, 0.9, 0.9, 0, 0, 3, 1)
  const HalfB := BBox(0, 0.5, 0.8, 0.8, 1, 0, 3, 1)

  /** Their intersection 2 over their union 3 + 3 - 2 is exactly one half. */
  lemma HalfOverlapIou()
    ensures !Disjoint(HalfA, HalfB) && InterArea(HalfA, HalfB) == 2 && AreaSum(HalfA, HalfB) == 4
    ensures CalcIou(HalfA, HalfB) == 0.5
  {
  }

  /** At IoU exactly 0.5 the strict comparison merges nothing: both boxes are kept. */
  lemma HalfOverlapKeepsBoth()
    ensures NmsResult([HalfA, HalfB], NmsIouThreshold, false) == [HalfA, HalfB]
  {
    HalfOverlapIou();
    assert SortByScore([HalfA, HalfB]) == [HalfA, HalfB] by {
      assert [HalfA, HalfB][1..] == [HalfB];
      assert SortByScore([HalfB]) == [HalfB] by { assert [HalfB][1..] == []; }
    }
    var s := [HalfA, HalfB];
    assert !Suppresses(HalfA, HalfB, NmsIouThreshold, false);
    assert Kept(s, 0, NmsIouThreshold, false);
    assert Kept(s, 1, NmsIouThreshold, false);
    assert KeptUpTo(s, 1, NmsIouThreshold, false) == [HalfA];
    assert KeptUpTo(s, 2, NmsIouThreshold, false) == [HalfA] + [HalfB];
  }
}
