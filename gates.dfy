/**
 * The three gate helpers (position, yaw and bin networks): their
 * postprocess does nothing, and their worker sends one fixed-size record
 * built from the first outputs of the network and the frame's capture time
 * to the detection channel. No image is published.
 */
module Gates {
  import opened Common
  import Utils

  /** postprocess of every gate helper: nothing to do, always succeeds. */
  function GatePostprocess(): (ok: bool)
    ensures ok
  {
    true
  }

  /** A frame header whose capture time fits the signed 64-bit field. */
  predicate TimestampFits(meta: FrameMeta)
  {
    -Utils.Two63 <= meta.timestampNs < Utils.Two63
  }

  /** worker of the position helper: x, y, z from outputs 0 to 2. */
  function GateXyzWrites(out: seq<real>, meta: FrameMeta): seq<Publish>
    requires 3 <= |out| && TimestampFits(meta)
  {
    [Publish(DetectionChannel, GateXyzRecord(out[0], out[1], out[2], Utils.ToUint64(meta.timestampNs)))]
  }

  /** worker of the yaw helper: the yaw from output 0. */
  function GateYawWrites(out: seq<real>, meta: FrameMeta): seq<Publish>
    requires 1 <= |out| && TimestampFits(meta)
  {
    [Publish(DetectionChannel, GateYawRecord(out[0], Utils.ToUint64(meta.timestampNs)))]
  }

  /** worker of the bin helper: the bin score from output 0. */
  function GateBinWrites(out: seq<real>, meta: FrameMeta): seq<Publish>
    requires 1 <= |out| && TimestampFits(meta)
  {
    [Publish(DetectionChannel, GateBinRecord(out[0], Utils.ToUint64(meta.timestampNs)))]
  }

  /** The timestamp a gate record carries. */
  function RecordTimestamp(p: Payload): int
    requires p.GateXyzRecord? || p.GateYawRecord? || p.GateBinRecord?
  {
    match p
    case GateXyzRecord(_, _, _, ts) => ts
    case GateYawRecord(_, ts) => ts
    case GateBinRecord(_, ts) => ts
  }

  /**
   * What a gate worker writes for one frame: exactly one gate record, to
   * the detection channel and never to the image channel, carrying the
   * frame's capture time (not a clock reading) as an unsigned value.
   */
  predicate OneGateRecord(w: seq<Publish>, meta: FrameMeta)
    requires TimestampFits(meta)
  {
    |w| == 1 && w[0].channel == DetectionChannel && w[0].channel != ImageChannel &&
    (w[0].payload.GateXyzRecord? || w[0].payload.GateYawRecord? || w[0].payload.GateBinRecord?) &&
    RecordTimestamp(w[0].payload) == Utils.ToUint64(meta.timestampNs) &&
    (0 <= meta.timestampNs ==> RecordTimestamp(w[0].payload) == meta.timestampNs)
  }

  /** Each of the three gate workers writes one gate record per frame. */
  lemma GateWritesOneRecord(out: seq<real>, meta: FrameMeta)
    requires 1 <= |out| && TimestampFits(meta)
    ensures 3 <= |out| ==> OneGateRecord(GateXyzWrites(out, meta), meta)
    ensures OneGateRecord(GateYawWrites(out, meta), meta)
    ensures OneGateRecord(GateBinWrites(out, meta), meta)
  {
  }

  /** The position record carries outputs 0, 1 and 2 in that order; the others output 0. */
  lemma GateRecordsCarryOutputs(out: seq<real>, meta: FrameMeta)
    requires 1 <= |out| && TimestampFits(meta)
    ensures 3 <= |out| ==> GateXyzWrites(out, meta)[0].payload.x == out[0] &&
                           GateXyzWrites(out, meta)[0].payload.y == out[1] &&
                           GateXyzWrites(out, meta)[0].payload.z == out[2]
    ensures GateYawWrites(out, meta)[0].payload.yaw == out[0]
    ensures GateBinWrites(out, meta)[0].payload.bin == out[0]
  {
  }
}
