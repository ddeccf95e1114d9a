/**
 * Vocabulary shared by every part of the inference server model: the
 * configuration enums, camera frame metadata, the detection record, the
 * records written to the two output channels, and the numeric conversions of
 * the C++ code (float-to-int casts and integer division truncate toward zero).
 */
module Common {

  datatype Option<T> = None | Some(value: T)

  // ---------------------------------------------------------------- constants

  /** Output channel numbers of the server. */
  const ImageChannel: int := 0
  const DetectionChannel: int := 1

  /** Largest frame, in bytes, that fits a ring slot. */
  const MaxImageSize: int := 12441600

  /** Number of slots of the camera ring. */
  const QueueSize: int := 24

  /** Normalisation constants applied to float32 input tensors. */
  const NormalizationConst: real := 255.0
  const PixelMeanGuess: real := 127.0

  // -------------------------------------------------------- configuration enums

  /** TFLite delegate selected on the command line. */
  datatype DelegateOpt = Xnnpack | Gpu | Nnapi

  /** How float32 input pixels are scaled before inference. */
  datatype NormalizationType = NoNormalization | PixelMean | HardDivision

  /**
   * The network families the server knows. Zeroshot is handled by the
   * helper factory although the C++ enumeration does not list it.
   */
  datatype ModelName =
    | MobileNet | FastDepth | DeepLab | EfficientNet | PoseNet
    | YoloV5 | YoloV8 | YoloV11 | GateXyz | GateYaw | GateBin | Placeholder
    | Zeroshot

  datatype ModelCategory = ObjectDetection | Classification | Segmentation | MonoDepth | Pose

  /** Element type tag of a TFLite tensor. */
  datatype TensorType = Float32 | Int32 | Int64 | Int8 | UInt8 | OtherType(code: int)

  // ------------------------------------------------------------ frame metadata

  /** Pixel formats of camera frames the server distinguishes; any other tag is OtherFormat. */
  datatype ImageFormat =
    | Raw8 | Nv12 | StereoRaw8 | StereoNv12 | Nv21 | StereoNv21 | Yuv422 | Rgb
    | OtherFormat(code: int)

  /** The fields of a camera frame header that the server reads or rewrites. */
  datatype FrameMeta = FrameMeta(
    width: int, height: int, stride: int, format: ImageFormat,
    sizeBytes: int, timestampNs: int, frameId: int)

  // ------------------------------------------------------------------ outputs

  /** One object detection as published on the detection channel. */
  datatype Detection = Detection(
    classId: int, className: string, cam: string, timestampNs: int,
    xMin: int, yMin: int, xMax: int, yMax: int,
    classConfidence: real, detectionConfidence: real, frameId: int)

  /** Which image buffer a camera-frame write carries. */
  datatype ImageSource = OutputImage | PreprocessedImage

  /** What is written to an output channel. */
  datatype Payload =
    | DetectionBatch(detections: seq<Detection>)
    | CameraFrame(meta: FrameMeta, image: ImageSource)
    | GateXyzRecord(x: real, y: real, z: real, timestampNs: int)
    | GateYawRecord(yaw: real, timestampNs: int)
    | GateBinRecord(bin: real, timestampNs: int)
    | ZeroshotRecord(vx: real, vy: real, vz: real, yaw: real, timestampNs: int)

  datatype Publish = Publish(channel: int, payload: Payload)

  /** The output pipes, seen as one append-only log of writes. */
  class Outbox {
    var entries: seq<Publish>

    constructor ()
      ensures entries == []
    {
      entries := [];
    }

    method Write(p: Publish)
      modifies this
      ensures entries == old(entries) + [p]
    {
      entries := entries + [p];
    }
  }

  /**
   * What the worker of every object detector writes for one frame: the
   * detection batch when it is non-empty, then always the output image,
   * stamped with the clock reading `now` rather than the capture time.
   */
  function DetectorWrites(detections: seq<Detection>, meta: FrameMeta, now: int): (w: seq<Publish>)
    ensures |w| == if detections == [] then 1 else 2
    ensures w[|w| - 1] == Publish(ImageChannel, CameraFrame(meta.(timestampNs := now), OutputImage))
    ensures forall k :: 0 <= k < |w| - 1 ==> w[k] == Publish(DetectionChannel, DetectionBatch(detections))
  {
    (if detections == [] then [] else [Publish(DetectionChannel, DetectionBatch(detections))])
    + [Publish(ImageChannel, CameraFrame(meta.(timestampNs := now), OutputImage))]
  }

  // -------------------------------------------------------- numeric conversion

  /** C++ conversion of a floating value to an integer: truncation toward zero. */
  function Trunc(x: real): int
  {
    if x >= 0.0 then x.Floor else -((-x).Floor)
  }

  /** Truncation drops the fraction, moving toward zero, and never changes the sign. */
  lemma TruncBounds(x: real)
    ensures 0.0 <= x ==> 0 <= Trunc(x) && Trunc(x) as real <= x < Trunc(x) as real + 1.0
    ensures x < 0.0 ==> Trunc(x) <= 0 && Trunc(x) as real - 1.0 < x <= Trunc(x) as real
  {
  }

  /** C++ integer division by a positive divisor: truncation toward zero. */
  function DivTrunc(a: int, b: int): (q: int)
    requires b > 0
    ensures 0 <= a ==> 0 <= q && q * b <= a < q * b + b
    ensures a < 0 ==> q <= 0 && q * b - b < a <= q * b
  {
    if a >= 0 then a / b else -((-a) / b)
  }

  // ---------------------------------------------------------------- labels

  /** The characters C's isspace accepts. */
  predicate IsSpace(c: char)
  {
    c == ' ' || c == '\t' || c == '\n' || c == '\r' || c == '\U{000B}' || c == '\U{000C}'
  }

  /** Index of the first blank in `s`, as std::string::find(" ") reports it. */
  function FindBlank(s: string): (r: Option<nat>)
    ensures r.None? <==> ' ' !in s
    ensures r.Some? ==> r.value < |s| && s[r.value] == ' ' && ' ' !in s[..r.value]
  {
    if s == [] then None
    else if s[0] == ' ' then Some(0)
    else match FindBlank(s[1..])
      case None => None
      case Some(k) => assert s[1..][..k] == s[1..k + 1]; Some(k + 1)
  }

  /** `s` with every isspace character erased, the rest kept in order. */
  function StripSpaces(s: string): (r: string)
    ensures forall c :: c in r ==> c in s && !IsSpace(c)
    ensures (forall c :: c in s ==> !IsSpace(c)) ==> r == s
  {
    if s == [] then []
    else if IsSpace(s[0]) then StripSpaces(s[1..])
    else [s[0]] + StripSpaces(s[1..])
  }

  /** Erasing whitespace works piece by piece: the kept characters of `a`, then those of `b`. */
  lemma {:induction false} StripSpacesConcat(a: string, b: string)
    ensures StripSpaces(a + b) == StripSpaces(a) + StripSpaces(b)
  {
    if a == [] {
      assert a + b == b;
    } else {
      assert (a + b)[0] == a[0];
      assert (a + b)[1..] == a[1..] + b;
      StripSpacesConcat(a[1..], b);
    }
  }

  /** A single character is erased exactly when it is whitespace, and kept otherwise. */
  lemma StripSpacesChar(c: char)
    ensures IsSpace(c) ==> StripSpaces([c]) == []
    ensures !IsSpace(c) ==> StripSpaces([c]) == [c]
  {
  }

  /** Every non-whitespace character survives, in order: a two-word label loses only its blank. */
  lemma TwoWordName(first: string, second: string)
    requires forall c :: c in first ==> !IsSpace(c)
    requires forall c :: c in second ==> !IsSpace(c)
    ensures StripSpaces(first + " " + second) == first + second
  {
    StripSpacesConcat(first + " ", second);
    StripSpacesConcat(first, " ");
    StripSpacesChar(' ');
    assert StripSpaces(first + " ") == first;
  }

  /**
   * Class name shown for a label line such as "0 person": the text after
   * the first blank with all whitespace erased. A line without a blank is
   * taken whole, because find returns npos and npos + 1 wraps to 0.
   */
  function ClassNameOf(line: string): (r: string)
    ensures forall c :: c in r ==> !IsSpace(c)
    ensures ' ' !in line ==> r == StripSpaces(line)
  {
    match FindBlank(line)
    case None => StripSpaces(line)
    case Some(k) => StripSpaces(line[k + 1..])
  }

  /** A line "<id> <name>" whose id has no blank is shown as the name with whitespace erased. */
  lemma ClassNameAfterFirstBlank(id: string, name: string)
    requires ' ' !in id
    ensures ClassNameOf(id + " " + name) == StripSpaces(name)
  {
    var line := id + " " + name;
    assert line[|id|] == ' ';
    assert line[..|id|] == id;
    var k := FindBlank(line);
    assert k.Some?;
    assert line[|id| + 1..] == name;
  }
}
