/**
 * The three-stage hand-off behind the camera ring, with the worker threads
 * replaced by explicit step calls. The preprocess stage reads the ring with
 * its own cursor and pushes accepted frames onto a FIFO; the inference stage
 * pops that FIFO, forwards successful items to a second FIFO and then trims
 * both to their newest QueueLimit items; the postprocess stage pops the
 * second FIFO.
 */
module Pipeline {
  import opened Common
  import opened Ingest
  import ModelHelperBase

  /** Most items a hand-off queue keeps after a trim. */
  const QueueLimit: nat := 1

  /**
   * One frame in flight: its (rewritten) header, the ring slot it was read
   * from, and the inference time attached by the inference stage. The image
   * buffers themselves are not part of this model.
   */
  datatype PipelineData = PipelineData(meta: FrameMeta, slot: int, lastInferenceTime: real)

  /** What one preprocess step did. */
  datatype PreprocessOutcome = Waiting | Rejected | Enqueued

  /** The newest `limit` items of a queue, oldest first. */
  function Newest<T>(q: seq<T>, limit: nat): (r: seq<T>)
    ensures |r| == if |q| <= limit then |q| else limit
    ensures r == q[|q| - |r|..]
  {
    if |q| <= limit then q else q[|q| - limit..]
  }

  /** Pop the front until at most `limit` items are left. */
  method TrimFront<T>(q: seq<T>, limit: nat) returns (r: seq<T>)
    ensures r == Newest(q, limit)
  {
    r := q;
    while |r| > limit
      invariant |r| <= |q| && r == q[|q| - |r|..]
      invariant limit <= |r| || r == q
    {
      ghost var dropped := |q| - |r|;
      r := r[1..];
      assert r == q[dropped + 1..];
    }
  }

  /** Trimming never reorders or invents items, and trimming again changes nothing. */
  lemma NewestIsStable<T>(q: seq<T>, limit: nat)
    ensures multiset(Newest(q, limit)) <= multiset(q)
    ensures Newest(Newest(q, limit), limit) == Newest(q, limit)
  {
    var r := Newest(q, limit);
    assert q == q[..|q| - |r|] + r;
  }

  /** Right after a push, a trim to one item keeps exactly the pushed item. */
  lemma TrimAfterPushKeepsPushed<T>(q: seq<T>, x: T)
    ensures Newest(q + [x], QueueLimit) == [x]
  {
  }

  /** Advancing the cursor by one slot keeps it equal to the read count modulo the ring size. */
  lemma CursorAdvances(n: nat)
    ensures (n % QueueSize + 1) % QueueSize == (n + 1) % QueueSize
  {
  }

  /**
   * The pipeline state. `Consumed` counts the ring reads of the preprocess
   * stage; the cursor is that count modulo the ring size, just as the ring's
   * insert index is its write count modulo the ring size.
   */
  class Pipeline {
    const ring: CameraQueue
    const helper: ModelHelperBase.ModelHelper
    var cursor: int
    var preprocessQueue: seq<PipelineData>
    var postprocessQueue: seq<PipelineData>
    ghost var Consumed: nat

    ghost predicate Valid()
      reads this, ring, ring.slots
    {
      ring.Valid() && 0 <= cursor < QueueSize && cursor == Consumed % QueueSize
    }

    constructor (ring: CameraQueue, helper: ModelHelperBase.ModelHelper)
      requires ring.Valid()
      ensures Valid() && this.ring == ring && this.helper == helper
      ensures cursor == 0 && Consumed == 0 && preprocessQueue == [] && postprocessQueue == []
    {
      this.ring := ring;
      this.helper := helper;
      cursor := 0;
      Consumed := 0;
      preprocessQueue := [];
      postprocessQueue := [];
    }

    /**
     * One turn of the preprocess loop. With the cursor on the insert index
     * the stage waits; otherwise it takes the slot under the cursor, advances
     * the cursor, and enqueues the frame only if preprocess accepted it.
     */
    method PreprocessStep() returns (outcome: PreprocessOutcome)
      requires Valid()
      modifies this, helper
      ensures Valid()
      ensures outcome == Waiting <==> old(cursor) == ring.insertIdx
      ensures outcome == Waiting <==> |ring.Written| % QueueSize == old(Consumed) % QueueSize
      ensures outcome == Waiting ==>
                cursor == old(cursor) && Consumed == old(Consumed) &&
                preprocessQueue == old(preprocessQueue) &&
                helper.numFramesProcessed == old(helper.numFramesProcessed)
      ensures outcome != Waiting ==>
                cursor == (old(cursor) + 1) % QueueSize && Consumed == old(Consumed) + 1 &&
                helper.numFramesProcessed == old(helper.numFramesProcessed) + 1
      ensures outcome == Rejected ==> preprocessQueue == old(preprocessQueue)
      ensures outcome != Waiting && old(helper.numFramesProcessed) == 0 ==> outcome == Rejected
      ensures outcome == Enqueued ==>
                var frameMeta := ring.slots[old(cursor)].meta;
                ModelHelperBase.RewriteMeta(frameMeta).Some? &&
                preprocessQueue == old(preprocessQueue) +
                  [PipelineData(ModelHelperBase.RewriteMeta(frameMeta).value, old(cursor), 0.0)]
      ensures postprocessQueue == old(postprocessQueue)
    {
      if cursor == ring.insertIdx {
        return Waiting;
      }
      var slot := cursor;
      CursorAdvances(Consumed);
      cursor := (cursor + 1) % QueueSize;
      Consumed := Consumed + 1;
      assert Valid();
      var frameMeta := ring.slots[slot].meta;
      var ok, meta := helper.Preprocess(frameMeta);
      if !ok {
        return Rejected;
      }
      preprocessQueue := preprocessQueue + [PipelineData(meta, slot, 0.0)];
      outcome := Enqueued;
    }

    /**
     * One turn of the inference loop; `inferenceOk` and `elapsed` are what
     * run_inference reports. An empty input queue means waiting. A failed
     * inference drops the popped item and skips the trim; a successful one
     * forwards the item with its time attached and trims both queues.
     */
    method InferenceStep(inferenceOk: bool, elapsed: real) returns (item: Option<PipelineData>)
      modifies this
      ensures item.None? <==> old(preprocessQueue) == []
      ensures item.None? ==> preprocessQueue == old(preprocessQueue) && postprocessQueue == old(postprocessQueue)
      ensures item.Some? ==> item.value == old(preprocessQueue)[0]
      ensures item.Some? && !inferenceOk ==>
                preprocessQueue == old(preprocessQueue)[1..] && postprocessQueue == old(postprocessQueue)
      ensures item.Some? && inferenceOk ==>
                preprocessQueue == Newest(old(preprocessQueue)[1..], QueueLimit) &&
                postprocessQueue ==
                  Newest(old(postprocessQueue) + [item.value.(lastInferenceTime := elapsed)], QueueLimit)
      ensures cursor == old(cursor) && Consumed == old(Consumed)
    {
      if preprocessQueue == [] {
        return None;
      }
      var data := preprocessQueue[0];
      preprocessQueue := preprocessQueue[1..];
      item := Some(data);
      if !inferenceOk {
        return;
      }
      postprocessQueue := postprocessQueue + [data.(lastInferenceTime := elapsed)];
      preprocessQueue := TrimFront(preprocessQueue, QueueLimit);
      postprocessQueue := TrimFront(postprocessQueue, QueueLimit);
    }

    /** One turn of the postprocess loop: take the oldest forwarded item, if any. */
    method PostprocessStep() returns (item: Option<PipelineData>)
      modifies this
      ensures item.None? <==> old(postprocessQueue) == []
      ensures item.Some? ==> item.value == old(postprocessQueue)[0] && postprocessQueue == old(postprocessQueue)[1..]
      ensures item.None? ==> postprocessQueue == old(postprocessQueue)
      ensures preprocessQueue == old(preprocessQueue) && cursor == old(cursor) && Consumed == old(Consumed)
    {
      if postprocessQueue == [] {
        return None;
      }
      item := Some(postprocessQueue[0]);
      postprocessQueue := postprocessQueue[1..];
    }
  }

  /**
   * The producer writes a whole lap of QueueSize frames while the consumer
   * is not looking: the insert index is back where it started.
   */
  method StoreLap(ring: CameraQueue, meta: FrameMeta, frame: seq<int>)
    requires ring.Valid()
    requires 0 <= meta.sizeBytes <= MaxImageSize && meta.sizeBytes <= |frame|
    modifies ring, ring.slots
    ensures ring.Valid() && ring.slots == old(ring.slots)
    ensures ring.insertIdx == old(ring.insertIdx)
    ensures |ring.Written| == |old(ring.Written)| + QueueSize
  {
    var n := 0;
    while n < QueueSize
      invariant 0 <= n <= QueueSize
      invariant ring.Valid() && ring.slots == old(ring.slots)
      invariant |ring.Written| == |old(ring.Written)| + n
    {
      var _ := ring.Store(meta, frame);
      n := n + 1;
    }
  }

  /**
   * A consumer that had caught up, and then finds that exactly one lap of
   * frames was written, sees no new frame at all: all QueueSize frames are
   * lost to it.
   */
  method LapLooksEmpty(p: Pipeline, meta: FrameMeta, frame: seq<int>) returns (outcome: PreprocessOutcome)
    requires p.Valid() && p.cursor == p.ring.insertIdx
    requires 0 <= meta.sizeBytes <= MaxImageSize && meta.sizeBytes <= |frame|
    modifies p, p.helper, p.ring, p.ring.slots
    ensures outcome == Waiting
    ensures |p.ring.Written| == |old(p.ring.Written)| + QueueSize
    ensures p.preprocessQueue == old(p.preprocessQueue)
  {
    StoreLap(p.ring, meta, frame);
    outcome := p.PreprocessStep();
  }
}
