/**
 * The zeroshot control helper: besides the camera image, its network takes
 * the last five control commands (vx, vy, vz, yaw each). The commands are
 * pushed in from outside together with a flag saying whether the history
 * is complete yet; until it is, no inference runs and nothing is
 * published. Afterwards every frame yields one velocity/yaw command record.
 */
module Zeroshot {
  import opened Common
  import Utils
  import ModelHelperBase

  /** Shape of the control history: five commands of four values. */
  const ControlRows: nat := 5
  const ControlCols: nat := 4
  const ControlSize: nat := 20

  /** A 5 x 4 control history as the caller hands it over. */
  predicate IsControlBuffer(buffer: seq<seq<real>>)
  {
    |buffer| == ControlRows && forall i :: 0 <= i < ControlRows ==> |buffer[i]| == ControlCols
  }

  /** Command i, value j of the history sits at position 4i + j of the control tensor, and no two share one. */
  lemma ControlLayoutRowMajor(i: nat, j: nat, i': nat, j': nat)
    requires i < ControlRows && j < ControlCols && i' < ControlRows && j' < ControlCols
    ensures i * ControlCols + j < ControlSize
    ensures i * ControlCols + j == i' * ControlCols + j' ==> i == i' && j == j'
  {
  }

  /** The zeroshot helper: the base helper's state, the control history and its flag. */
  class ZeroshotHelper {
    const base: ModelHelperBase.ModelHelper
    const controlInput: array2<real>
    var controlBufferFilled: bool

    ghost predicate Valid()
      reads this
    {
      controlInput.Length0 == ControlRows && controlInput.Length1 == ControlCols
    }

    /** The history as rows of values. */
    function Controls(): (rows: seq<seq<real>>)
      requires Valid()
      reads this, controlInput
      ensures IsControlBuffer(rows)
      ensures forall i, j :: 0 <= i < ControlRows && 0 <= j < ControlCols ==> rows[i][j] == controlInput[i, j]
    {
      seq(ControlRows, i requires 0 <= i < ControlRows reads controlInput =>
        seq(ControlCols, j requires 0 <= j < ControlCols reads controlInput => controlInput[i, j]))
    }

    /** The constructor starts with an all-zero history that is not yet complete. */
    constructor (base: ModelHelperBase.ModelHelper)
      ensures Valid() && fresh(controlInput) && this.base == base
      ensures !controlBufferFilled
      ensures forall i, j :: 0 <= i < ControlRows && 0 <= j < ControlCols ==> controlInput[i, j] == 0.0
    {
      this.base := base;
      controlInput := new real[ControlRows, ControlCols]((i, j) => 0.0);
      controlBufferFilled := false;
    }

    /** update_control_buffer: the history becomes `buffer` and the flag `filled`; nothing else changes. */
    method UpdateControlBuffer(buffer: seq<seq<real>>, filled: bool)
      requires Valid() && IsControlBuffer(buffer)
      modifies this, controlInput
      ensures Valid() && Controls() == buffer && controlBufferFilled == filled
    {
      forall i, j | 0 <= i < ControlRows && 0 <= j < ControlCols {
        controlInput[i, j] := buffer[i][j];
      }
      controlBufferFilled := filled;
      var rows := Controls();
      forall i | 0 <= i < ControlRows
        ensures rows[i] == buffer[i]
      {
        assert forall j :: 0 <= j < ControlCols ==> rows[i][j] == buffer[i][j];
      }
    }

    /** preprocess: exactly the base helper's. */
    method Preprocess(meta: FrameMeta) returns (ok: bool, outMeta: FrameMeta)
      modifies base
      ensures base.numFramesProcessed == old(base.numFramesProcessed) + 1
      ensures old(base.numFramesProcessed) == 0 ==> !ok && outMeta == meta
      ensures old(base.numFramesProcessed) != 0 ==>
                ok == ModelHelperBase.KnownFormat(meta.format) &&
                (ok ==> Some(outMeta) == ModelHelperBase.RewriteMeta(meta)) && (!ok ==> outMeta == meta)
    {
      ok, outMeta := base.Preprocess(meta);
    }

    /** postprocess: nothing to do, always succeeds. */
    method Postprocess() returns (ok: bool)
      ensures ok
    {
      ok := true;
    }

    /**
     * run_inference on the preprocessed image (its bytes, `image`): fails
     * at once while the history is incomplete or when an input tensor is
     * missing (`tensorsPresent`); fails before copying when the image
     * tensor's size d1 * d2 * d3 differs from the image's; copies the image
     * scaled to [0, 1]; fails, the image copied, when the control tensor
     * does not hold 20 values; copies the history row after row and runs
     * the interpreter (`invokeOk`).
     */
    method RunInference(image: seq<int>, d1: int, d2: int, d3: int, tensorsPresent: bool, imageData: array<real>,
                        controlDims1: nat, controlData: array<real>, invokeOk: bool) returns (ok: bool)
      requires Valid() && imageData != controlData
      requires d1 * d2 * d3 == imageData.Length && controlDims1 == controlData.Length
      modifies imageData, controlData
      ensures ok <==> old(controlBufferFilled) && tensorsPresent && d1 * d2 * d3 == |image| &&
                      controlDims1 == ControlSize && invokeOk
      ensures controlBufferFilled && tensorsPresent && d1 * d2 * d3 == |image| ==>
        forall k :: 0 <= k < |image| ==> imageData[k] == image[k] as real / 255.0
      ensures !(controlBufferFilled && tensorsPresent && d1 * d2 * d3 == |image|) ==> imageData[..] == old(imageData[..])
      ensures controlBufferFilled && tensorsPresent && d1 * d2 * d3 == |image| && controlDims1 == ControlSize ==>
        forall i, j :: 0 <= i < ControlRows && 0 <= j < ControlCols ==> controlData[i * ControlCols + j] == controlInput[i, j]
      ensures !(controlBufferFilled && tensorsPresent && d1 * d2 * d3 == |image| && controlDims1 == ControlSize) ==>
        controlData[..] == old(controlData[..])
    {
      if !controlBufferFilled {
        return false;
      }
      if !tensorsPresent {
        return false;
      }
      var expectedImageSize := d1 * d2 * d3;
      var actualImageSize := |image|;
      if expectedImageSize != actualImageSize {
        return false;
      }
      forall k | 0 <= k < actualImageSize {
        imageData[k] := image[k] as real / 255.0;
      }
      if controlDims1 != ControlSize {
        return false;
      }
      FillControls(controlData);
      ok := invokeOk;
    }

    /** The control copy: command i, value j into position 4i + j. */
    method FillControls(controlData: array<real>)
      requires Valid() && controlData.Length == ControlSize
      modifies controlData
      ensures forall i, j :: 0 <= i < ControlRows && 0 <= j < ControlCols ==>
        controlData[i * ControlCols + j] == controlInput[i, j]
    {
      var i := 0;
      while i < ControlRows
        invariant 0 <= i <= ControlRows
        invariant forall r, c :: 0 <= r < i && 0 <= c < ControlCols ==> controlData[r * ControlCols + c] == controlInput[r, c]
      {
        FillControlRow(controlData, i);
        i := i + 1;
      }
    }

    /** The inner copy loop for command i. */
    method FillControlRow(controlData: array<real>, i: nat)
      requires Valid() && controlData.Length == ControlSize && i < ControlRows
      modifies controlData
      ensures forall c :: 0 <= c < ControlCols ==> controlData[i * ControlCols + c] == controlInput[i, c]
      ensures forall k :: 0 <= k < ControlSize && (k < i * ControlCols || (i + 1) * ControlCols <= k) ==>
        controlData[k] == old(controlData[k])
    {
      var j := 0;
      while j < ControlCols
        invariant 0 <= j <= ControlCols
        invariant forall c :: 0 <= c < j ==> controlData[i * ControlCols + c] == controlInput[i, c]
        invariant forall k :: 0 <= k < ControlSize && (k < i * ControlCols || (i + 1) * ControlCols <= k) ==>
          controlData[k] == old(controlData[k])
      {
        controlData[i * ControlCols + j] := controlInput[i, j];
        j := j + 1;
      }
    }

    /**
     * worker: while the history is incomplete, succeed without publishing;
     * otherwise publish one command record from outputs 0 to 3, stamped with
     * the frame's capture time.
     */
    method Worker(out: seq<real>, meta: FrameMeta, outbox: Outbox) returns (ok: bool)
      requires controlBufferFilled ==> 4 <= |out|
      requires -Utils.Two63 <= meta.timestampNs < Utils.Two63
      modifies outbox
      ensures ok
      ensures !controlBufferFilled ==> outbox.entries == old(outbox.entries)
      ensures controlBufferFilled ==>
        outbox.entries == old(outbox.entries) +
          [Publish(DetectionChannel, ZeroshotRecord(out[0], out[1], out[2], out[3], Utils.ToUint64(meta.timestampNs)))]
    {
      if !controlBufferFilled {
        return true;
      }
      var msg := ZeroshotRecord(out[0], out[1], out[2], out[3], Utils.ToUint64(meta.timestampNs));
      outbox.Write(Publish(DetectionChannel, msg));
      ok := true;
    }
  }
}
