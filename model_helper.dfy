/**
 * The part of every model helper that the concrete networks share: the
 * default preprocess step (first frame only sets up the resize, stereo
 * formats are treated as their mono format, the frame header is rewritten
 * for the colour image that goes downstream) and the copy of the
 * preprocessed image into the network's input tensor.
 */
module ModelHelperBase {
  import opened Common

  /** The formats the default preprocess accepts. */
  predicate KnownFormat(f: ImageFormat)
  {
    f in {Raw8, StereoRaw8, Nv12, StereoNv12, Nv21, StereoNv21, Yuv422}
  }

  /**
   * Header of a preprocessed frame, or None for a format the default
   * preprocess rejects. Stereo formats are first renamed to their mono
   * format and handled as that; the colour formats become RGB.
   */
  function RewriteMeta(meta: FrameMeta): (r: Option<FrameMeta>)
    decreases if meta.format in {StereoNv12, StereoNv21, StereoRaw8} then 1 else 0
    ensures r.Some? <==> KnownFormat(meta.format)
    ensures r.Some? && meta.format in {Raw8, StereoRaw8} ==> r.value == meta.(format := Raw8)
    ensures r.Some? && meta.format !in {Raw8, StereoRaw8} ==>
              r.value.format == Rgb && r.value.sizeBytes == meta.height * meta.width * 3 &&
              r.value.stride == meta.width * 3 &&
              r.value.(format := meta.format, sizeBytes := meta.sizeBytes, stride := meta.stride) == meta
  {
    match meta.format
    case StereoNv12 => RewriteMeta(meta.(format := Nv12))
    case StereoNv21 => RewriteMeta(meta.(format := Nv21))
    case StereoRaw8 => RewriteMeta(meta.(format := Raw8))
    case Nv12 => Some(meta.(format := Rgb, sizeBytes := meta.height * meta.width * 3, stride := meta.width * 3))
    case Nv21 => Some(meta.(format := Rgb, sizeBytes := meta.height * meta.width * 3, stride := meta.width * 3))
    case Yuv422 => Some(meta.(format := Rgb, sizeBytes := meta.height * meta.width * 3, stride := meta.width * 3))
    case Raw8 => Some(meta)
    case _ => None
  }

  /** Float32 input value of pixel byte `x` under a normalisation setting. */
  function Normalize(x: int, norm: NormalizationType): (v: real)
    ensures 0 <= x <= 255 && norm == HardDivision ==> 0.0 <= v <= 1.0
    ensures 0 <= x <= 255 && norm == PixelMean ==> -1.0 <= v <= 128.0 / 127.0
    ensures norm == NoNormalization ==> v == x as real
  {
    match norm
    case HardDivision => x as real / NormalizationConst
    case PixelMean => (x as real - PixelMeanGuess) / PixelMeanGuess
    case NoNormalization => x as real
  }

  /** An unsigned byte stored into a signed 8-bit tensor element (two's complement). */
  function ToInt8(x: int): (r: int)
    requires 0 <= x < 256
    ensures -128 <= r < 128
    ensures (r + 256) % 256 == x
  {
    if x < 128 then x else x - 256
  }

  /** The value an integer input tensor of type `t` receives for pixel byte `x`. */
  function StoredByte(x: int, t: TensorType): int
  {
    if t == Int8 && 0 <= x < 256 then ToInt8(x) else x
  }

  /** The first `rowElems` bytes of each of the first `rows` image rows, row after row. */
  function Flatten(image: seq<seq<int>>, rows: nat, rowElems: nat): (flat: seq<int>)
    requires rows <= |image|
    requires forall r :: 0 <= r < rows ==> |image[r]| >= rowElems
    ensures |flat| == rows * rowElems
  {
    if rows == 0 then [] else Flatten(image, rows - 1, rowElems) + image[rows - 1][..rowElems]
  }

  /** Element i of image row r sits at r * rowElems + i of the flattened image. */
  lemma {:induction false} FlattenAt(image: seq<seq<int>>, rows: nat, rowElems: nat, r: nat, i: nat)
    requires rows <= |image|
    requires forall r :: 0 <= r < rows ==> |image[r]| >= rowElems
    ensures r < rows && i < rowElems ==>
              r * rowElems + i < rows * rowElems &&
              Flatten(image, rows, rowElems)[r * rowElems + i] == image[r][i]
  {
    if rows > 0 {
      FlattenAt(image, rows - 1, rowElems, r, i);
      if r < rows - 1 && i < rowElems {
        assert r * rowElems + i < (rows - 1) * rowElems;
      }
      if r == rows - 1 && i < rowElems {
        assert r * rowElems == (rows - 1) * rowElems;
      }
    }
  }

  /** The flattened first rows are a prefix of the flattened image. */
  lemma {:induction false} FlattenPrefix(image: seq<seq<int>>, n: nat, rows: nat, rowElems: nat)
    requires n <= rows <= |image|
    requires forall r :: 0 <= r < rows ==> |image[r]| >= rowElems
    ensures Flatten(image, n, rowElems) <= Flatten(image, rows, rowElems)
  {
    if n < rows {
      FlattenPrefix(image, n, rows - 1, rowElems);
    }
  }

  /** One more row: the flattened rows so far, then the new row's first `rowElems` bytes. */
  lemma FlattenNext(image: seq<seq<int>>, row: nat, rowElems: nat)
    requires row < |image|
    requires forall r :: 0 <= r <= row ==> |image[r]| >= rowElems
    ensures var before := Flatten(image, row, rowElems);
            var after := Flatten(image, row + 1, rowElems);
            (forall k :: 0 <= k < |before| ==> after[k] == before[k]) &&
            (forall k :: |before| <= k < |before| + rowElems ==> after[k] == image[row][k - |before|])
  {
  }

  /**
   * Base model helper state: the network input size, the normalisation
   * setting, the frame counter, the camera size seen on the first frame and
   * the size of the resize buffer set up then.
   */
  class ModelHelper {
    const modelWidth: nat
    const modelHeight: nat
    const modelChannels: nat
    const doNormalize: NormalizationType
    var numFramesProcessed: nat
    var inputWidth: int
    var inputHeight: int
    var resizeOutputBytes: int

    constructor (width: nat, height: nat, channels: nat, norm: NormalizationType)
      ensures modelWidth == width && modelHeight == height && modelChannels == channels
      ensures doNormalize == norm && numFramesProcessed == 0
    {
      modelWidth := width;
      modelHeight := height;
      modelChannels := channels;
      doNormalize := norm;
      numFramesProcessed := 0;
      inputWidth := 0;
      inputHeight := 0;
      resizeOutputBytes := 0;
    }

    /**
     * Count the frame; on the very first one only record the camera size and
     * size the resize buffer, and report failure so that the frame is not
     * passed on. Later frames are accepted exactly when their format is
     * known, and come back with the rewritten header.
     */
    method Preprocess(meta: FrameMeta) returns (ok: bool, outMeta: FrameMeta)
      modifies this
      ensures numFramesProcessed == old(numFramesProcessed) + 1
      ensures old(numFramesProcessed) == 0 ==>
                !ok && outMeta == meta &&
                inputWidth == meta.width && inputHeight == meta.height &&
                resizeOutputBytes == (if meta.format == Raw8 then modelHeight * modelWidth
                                      else modelHeight * modelWidth * 3)
      ensures old(numFramesProcessed) != 0 ==>
                inputWidth == old(inputWidth) && inputHeight == old(inputHeight) &&
                resizeOutputBytes == old(resizeOutputBytes) &&
                ok == KnownFormat(meta.format) &&
                (ok ==> Some(outMeta) == RewriteMeta(meta)) && (!ok ==> outMeta == meta)
    {
      numFramesProcessed := numFramesProcessed + 1;
      if numFramesProcessed == 1 {
        inputHeight := meta.height;
        inputWidth := meta.width;
        if meta.format == Raw8 {
          resizeOutputBytes := modelHeight * modelWidth;
        } else {
          resizeOutputBytes := modelHeight * modelWidth * 3;
        }
        return false, meta;
      }
      var m := meta;
      match m.format {
        case StereoNv12 =>
          m := m.(format := Nv12);
          m := m.(format := Rgb, sizeBytes := m.height * m.width * 3, stride := m.width * 3);
        case Nv12 =>
          m := m.(format := Rgb, sizeBytes := m.height * m.width * 3, stride := m.width * 3);
        case Yuv422 =>
          m := m.(format := Rgb, sizeBytes := m.height * m.width * 3, stride := m.width * 3);
        case StereoNv21 =>
          m := m.(format := Nv21);
          m := m.(format := Rgb, sizeBytes := m.height * m.width * 3, stride := m.width * 3);
        case Nv21 =>
          m := m.(format := Rgb, sizeBytes := m.height * m.width * 3, stride := m.width * 3);
        case StereoRaw8 =>
          m := m.(format := Raw8);
        case Raw8 =>
        case _ =>
          return false, meta;
      }
      return true, m;
    }

    /** Elements per image row that go into the input tensor. */
    function RowElems(): nat
      reads this
    {
      modelWidth * modelChannels
    }

    /**
     * Copy the preprocessed image into the input tensor, row after row, with
     * float normalisation for a float32 tensor and a plain byte copy for the
     * 8-bit tensors; then run the interpreter (`invokeOk` is its outcome).
     * Any other tensor type fails before anything is written or run.
     */
    method RunInference(image: seq<seq<int>>, inputType: TensorType,
                        floatTensor: array<real>, intTensor: array<int>, invokeOk: bool) returns (ok: bool)
      requires modelHeight <= |image|
      requires forall r :: 0 <= r < modelHeight ==> |image[r]| >= RowElems()
      requires inputType == Float32 ==> floatTensor.Length >= modelHeight * RowElems()
      requires inputType in {Int8, UInt8} ==> intTensor.Length >= modelHeight * RowElems()
      modifies floatTensor, intTensor
      ensures ok <==> inputType in {Float32, Int8, UInt8} && invokeOk
      ensures var flat := Flatten(image, modelHeight, RowElems());
              inputType == Float32 ==>
                (forall k :: 0 <= k < |flat| ==> floatTensor[k] == Normalize(flat[k], doNormalize)) &&
                (forall k :: |flat| <= k < floatTensor.Length ==> floatTensor[k] == old(floatTensor[k]))
      ensures var flat := Flatten(image, modelHeight, RowElems());
              inputType in {Int8, UInt8} ==>
                (forall k :: 0 <= k < |flat| ==> intTensor[k] == StoredByte(flat[k], inputType)) &&
                (forall k :: |flat| <= k < intTensor.Length ==> intTensor[k] == old(intTensor[k]))
      ensures inputType != Float32 ==> floatTensor[..] == old(floatTensor[..])
      ensures inputType !in {Int8, UInt8} ==> intTensor[..] == old(intTensor[..])
    {
      match inputType {
        case Float32 => FillFloat(image, floatTensor);
        case Int8 => FillBytes(image, intTensor, Int8);
        case UInt8 => FillBytes(image, intTensor, UInt8);
        case _ => return false;
      }
      ok := invokeOk;
    }

    /** The float32 row loop: dst advances by one row of elements per image row. */
    method FillFloat(image: seq<seq<int>>, dst: array<real>)
      requires modelHeight <= |image|
      requires forall r :: 0 <= r < modelHeight ==> |image[r]| >= RowElems()
      requires dst.Length >= modelHeight * RowElems()
      modifies dst
      ensures var flat := Flatten(image, modelHeight, RowElems());
              (forall k :: 0 <= k < |flat| ==> dst[k] == Normalize(flat[k], doNormalize)) &&
              (forall k :: |flat| <= k < dst.Length ==> dst[k] == old(dst[k]))
    {
      var rowElems := RowElems();
      var offset := 0;
      var row := 0;
      while row < modelHeight
        invariant 0 <= row <= modelHeight
        invariant offset == |Flatten(image, row, rowElems)|
        invariant offset <= dst.Length
        invariant forall k :: 0 <= k < offset ==> dst[k] == Normalize(Flatten(image, row, rowElems)[k], doNormalize)
        invariant forall k :: offset <= k < dst.Length ==> dst[k] == old(dst[k])
      {
        FlattenPrefix(image, row + 1, modelHeight, rowElems);
        FlattenNext(image, row, rowElems);
        CopyRowFloat(image[row], rowElems, dst, offset, doNormalize);
        offset := offset + rowElems;
        row := row + 1;
      }
    }

    /** The 8-bit row loops: each byte is stored as the tensor's element type. */
    method FillBytes(image: seq<seq<int>>, dst: array<int>, t: TensorType)
      requires modelHeight <= |image|
      requires forall r :: 0 <= r < modelHeight ==> |image[r]| >= RowElems()
      requires dst.Length >= modelHeight * RowElems()
      modifies dst
      ensures var flat := Flatten(image, modelHeight, RowElems());
              (forall k :: 0 <= k < |flat| ==> dst[k] == StoredByte(flat[k], t)) &&
              (forall k :: |flat| <= k < dst.Length ==> dst[k] == old(dst[k]))
    {
      var rowElems := RowElems();
      var offset := 0;
      var row := 0;
      while row < modelHeight
        invariant 0 <= row <= modelHeight
        invariant offset == |Flatten(image, row, rowElems)|
        invariant offset <= dst.Length
        invariant forall k :: 0 <= k < offset ==> dst[k] == StoredByte(Flatten(image, row, rowElems)[k], t)
        invariant forall k :: offset <= k < dst.Length ==> dst[k] == old(dst[k])
      {
        FlattenPrefix(image, row + 1, modelHeight, rowElems);
        FlattenNext(image, row, rowElems);
        CopyRowBytes(image[row], rowElems, dst, offset, t);
        offset := offset + rowElems;
        row := row + 1;
      }
    }
  }

  /** The inner float32 loop: one image row, normalised, into dst[offset..]. */
  method CopyRowFloat(row: seq<int>, n: nat, dst: array<real>, offset: nat, norm: NormalizationType)
    requires n <= |row| && offset + n <= dst.Length
    modifies dst
    ensures forall k :: offset <= k < offset + n ==> dst[k] == Normalize(row[k - offset], norm)
    ensures forall k :: 0 <= k < dst.Length && !(offset <= k < offset + n) ==> dst[k] == old(dst[k])
  {
    var i := 0;
    while i < n
      invariant 0 <= i <= n
      invariant forall k :: offset <= k < offset + i ==> dst[k] == Normalize(row[k - offset], norm)
      invariant forall k :: 0 <= k < dst.Length && !(offset <= k < offset + i) ==> dst[k] == old(dst[k])
    {
      dst[offset + i] := Normalize(row[i], norm);
      i := i + 1;
    }
  }

  /** The inner 8-bit loop: one image row, stored as type t, into dst[offset..]. */
  method CopyRowBytes(row: seq<int>, n: nat, dst: array<int>, offset: nat, t: TensorType)
    requires n <= |row| && offset + n <= dst.Length
    modifies dst
    ensures forall k :: offset <= k < offset + n ==> dst[k] == StoredByte(row[k - offset], t)
    ensures forall k :: 0 <= k < dst.Length && !(offset <= k < offset + n) ==> dst[k] == old(dst[k])
  {
    var i := 0;
    while i < n
      invariant 0 <= i <= n
      invariant forall k :: offset <= k < offset + i ==> dst[k] == StoredByte(row[k - offset], t)
      invariant forall k :: 0 <= k < dst.Length && !(offset <= k < offset + i) ==> dst[k] == old(dst[k])
    {
      dst[offset + i] := StoredByte(row[i], t);
      i := i + 1;
    }
  }
}
