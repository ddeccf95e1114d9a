/**
 * Start-up configuration of the server: the delegate chosen from its name,
 * the fixed table from model file path to (network, category,
 * normalisation), and the camera name taken from the input pipe path.
 */
module Config {
  import opened Common

  /** "cpu" selects XNNPACK, "nnapi" selects NNAPI, every other name the GPU delegate. */
  function SetDelegate(name: string): (d: DelegateOpt)
    ensures d == Xnnpack <==> name == "cpu"
    ensures d == Nnapi <==> name == "nnapi"
    ensures d == Gpu <==> name != "cpu" && name != "nnapi"
  {
    if name == "cpu" then Xnnpack
    else if name == "nnapi" then Nnapi
    else Gpu
  }

  /** What the server derives from the model path. */
  datatype ModelSettings = ModelSettings(name: ModelName, category: ModelCategory, norm: NormalizationType)

  const SsdLitePath: string := "/usr/bin/dnn/ssdlite_mobilenet_v2_coco.tflite"
  const MobileNetQuantPath: string := "/usr/bin/dnn/mobilenetv1_nnapi_quant.tflite"
  const FastDepthPath: string := "/usr/bin/dnn/fastdepth_float16_quant.tflite"
  const DeepLabPath: string := "/usr/bin/dnn/edgetpu_deeplab_321_os32_float16_quant.tflite"
  const EfficientNetPath: string := "/usr/bin/dnn/lite-model_efficientnet_lite4_uint8_2.tflite"
  const MobileNetClassifierPath: string := "/usr/bin/dnn/mobilenetv1_nnapi_classifier.tflite"
  const MoveNetPath: string := "/usr/bin/dnn/lite-model_movenet_singlepose_lightning_tflite_float16_4.tflite"
  const YoloV5Path: string := "/usr/bin/dnn/yolov5_float16_quant.tflite"
  const YoloV8Path: string := "/usr/bin/dnn/yolov8n_float16.tflite"
  const YoloV11Path: string := "/usr/bin/dnn/yolov11n_float16.tflite"
  const GateXyzPath: string := "/usr/bin/dnn/gate_xyz.tflite"
  const GateYawPath: string := "/usr/bin/dnn/gate_yaw.tflite"
  const GateBinPath: string := "/usr/bin/dnn/gate_bin.tflite"

  /** The shipped models, as (path, settings) pairs. */
  const KnownModels: seq<(string, ModelSettings)> := [
    (SsdLitePath, ModelSettings(MobileNet, ObjectDetection, PixelMean)),
    (MobileNetQuantPath, ModelSettings(MobileNet, ObjectDetection, PixelMean)),
    (FastDepthPath, ModelSettings(FastDepth, MonoDepth, HardDivision)),
    (DeepLabPath, ModelSettings(DeepLab, Segmentation, NoNormalization)),
    (EfficientNetPath, ModelSettings(EfficientNet, Classification, PixelMean)),
    (MobileNetClassifierPath, ModelSettings(MobileNet, Classification, PixelMean)),
    (MoveNetPath, ModelSettings(PoseNet, Pose, NoNormalization)),
    (YoloV5Path, ModelSettings(YoloV5, ObjectDetection, HardDivision)),
    (YoloV8Path, ModelSettings(YoloV8, ObjectDetection, HardDivision)),
    (YoloV11Path, ModelSettings(YoloV11, ObjectDetection, HardDivision)),
    (GateXyzPath, ModelSettings(GateXyz, ObjectDetection, NoNormalization)),
    (GateYawPath, ModelSettings(GateYaw, ObjectDetection, NoNormalization)),
    (GateBinPath, ModelSettings(GateBin, ObjectDetection, NoNormalization))
  ]

  /**
   * The settings for a model path. An unknown path selects the placeholder
   * detector and keeps the normalisation the caller had (`norm`), because
   * the C++ code only writes that out-parameter for known paths.
   */
  function InitializeModelSettings(model: string, norm: NormalizationType): (s: ModelSettings)
    ensures forall k :: 0 <= k < |KnownModels| && KnownModels[k].0 == model ==> s == KnownModels[k].1
    ensures (forall k :: 0 <= k < |KnownModels| ==> KnownModels[k].0 != model) ==>
              s == ModelSettings(Placeholder, ObjectDetection, norm)
  {
    assert KnownModels[0].0 == SsdLitePath && KnownModels[1].0 == MobileNetQuantPath && KnownModels[2].0 == FastDepthPath && KnownModels[3].0 == DeepLabPath;
    assert KnownModels[4].0 == EfficientNetPath && KnownModels[5].0 == MobileNetClassifierPath && KnownModels[6].0 == MoveNetPath && KnownModels[7].0 == YoloV5Path;
    assert KnownModels[8].0 == YoloV8Path && KnownModels[9].0 == YoloV11Path && KnownModels[10].0 == GateXyzPath && KnownModels[11].0 == GateYawPath && KnownModels[12].0 == GateBinPath;
    if model == SsdLitePath then ModelSettings(MobileNet, ObjectDetection, PixelMean)
    else if model == MobileNetQuantPath then ModelSettings(MobileNet, ObjectDetection, PixelMean)
    else if model == FastDepthPath then ModelSettings(FastDepth, MonoDepth, HardDivision)
    else if model == DeepLabPath then ModelSettings(DeepLab, Segmentation, NoNormalization)
    else if model == EfficientNetPath then ModelSettings(EfficientNet, Classification, PixelMean)
    else if model == MobileNetClassifierPath then ModelSettings(MobileNet, Classification, PixelMean)
    else if model == MoveNetPath then ModelSettings(PoseNet, Pose, NoNormalization)
    else if model == YoloV5Path then ModelSettings(YoloV5, ObjectDetection, HardDivision)
    else if model == YoloV8Path then ModelSettings(YoloV8, ObjectDetection, HardDivision)
    else if model == YoloV11Path then ModelSettings(YoloV11, ObjectDetection, HardDivision)
    else if model == GateXyzPath then ModelSettings(GateXyz, ObjectDetection, NoNormalization)
    else if model == GateYawPath then ModelSettings(GateYaw, ObjectDetection, NoNormalization)
    else if model == GateBinPath then ModelSettings(GateBin, ObjectDetection, NoNormalization)
    else ModelSettings(Placeholder, ObjectDetection, norm)
  }

  /** The gate networks are configured as detectors without input normalisation. */
  lemma GatePathsAreUnnormalisedDetectors(norm: NormalizationType)
    ensures InitializeModelSettings(GateXyzPath, norm) == ModelSettings(GateXyz, ObjectDetection, NoNormalization)
    ensures InitializeModelSettings(GateYawPath, norm) == ModelSettings(GateYaw, ObjectDetection, NoNormalization)
    ensures InitializeModelSettings(GateBinPath, norm) == ModelSettings(GateBin, ObjectDetection, NoNormalization)
  {
    assert KnownModels[10].0 == GateXyzPath;
    assert KnownModels[11].0 == GateYawPath;
    assert KnownModels[12].0 == GateBinPath;
  }

  /**
   * Whatever the path, the settings are either one row of the table or the
   * placeholder detector with the incoming normalisation.
   */
  lemma SettingsAreTabledOrPlaceholder(model: string, norm: NormalizationType)
    ensures var s := InitializeModelSettings(model, norm);
      s == ModelSettings(Placeholder, ObjectDetection, norm) ||
      exists k :: 0 <= k < |KnownModels| && KnownModels[k] == (model, s)
  {
    var s := InitializeModelSettings(model, norm);
    if k :| 0 <= k < |KnownModels| && KnownModels[k].0 == model {
      assert KnownModels[k] == (model, s);
    }
  }

  // ---------------------------------------------------------------- camera name

  /** Index of the last '/' strictly before position `hi`. */
  function LastSlashBefore(s: string, hi: nat): (r: Option<nat>)
    requires hi <= |s|
    ensures r.Some? ==> r.value < hi && s[r.value] == '/' && '/' !in s[r.value + 1..hi]
    ensures r.None? ==> '/' !in s[..hi]
  {
    if hi == 0 then None
    else if s[hi - 1] == '/' then Some(hi - 1)
    else
      var r := LastSlashBefore(s, hi - 1);
      assert r.None? ==> s[..hi] == s[..hi - 1] + [s[hi - 1]];
      assert r.Some? ==> s[r.value + 1..hi] == s[r.value + 1..hi - 1] + [s[hi - 1]];
      r
  }

  /**
   * The camera name the server publishes under: the input pipe path after
   * its last '/' at or before the second-to-last character, with the last
   * character dropped. Searching from size()-2 wraps around to a search of
   * the whole string when the path has one character, and when no '/' is
   * found the C++ npos + 1 wraps to 0, so the whole path is taken. The path
   * "/" (and the empty path) would pop from an empty string.
   */
  function CamName(path: string): (name: string)
    requires |path| >= 1 && path != "/"
    ensures '/' !in name
    ensures |name| < |path| && name + [path[|path| - 1]] == path[|path| - |name| - 1..]
  {
    var hi := if |path| >= 2 then |path| - 1 else |path|;
    var start := NameStart(path, hi);
    NameStartBeforeLast(path, hi);
    LastCharacterSplit(path, start);
    path[start..|path| - 1]
  }

  /** The name never starts at the last character: a one-character path other than "/" has no '/'. */
  lemma NameStartBeforeLast(path: string, hi: nat)
    requires |path| >= 1 && path != "/" && hi == (if |path| >= 2 then |path| - 1 else |path|)
    ensures NameStart(path, hi) <= |path| - 1
  {
    if |path| == 1 {
      assert path == [path[0]];
    }
  }

  /** A suffix of a path is its part before the last character, then that character. */
  lemma LastCharacterSplit(path: string, start: nat)
    requires start < |path|
    ensures path[start..] == path[start..|path| - 1] + [path[|path| - 1]]
  {
  }

  /** One past the last '/' before position `hi`, or 0 when there is none: npos + 1 wraps to 0. */
  function NameStart(path: string, hi: nat): (start: nat)
    requires hi <= |path|
    ensures start <= hi && '/' !in path[start..hi]
    ensures 0 < start ==> path[start - 1] == '/'
  {
    match LastSlashBefore(path, hi)
    case None => 0
    case Some(k) => k + 1
  }

  /** A pipe directory "<prefix>/<name>/" is named by its last component. */
  lemma {:induction false} CamNameOfPipeDirectory(prefix: string, name: string)
    requires '/' !in name
    ensures CamName(prefix + "/" + name + "/") == name
  {
    var path := prefix + "/" + name + "/";
    var hi := |path| - 1;
    assert path[|prefix|] == '/';
    assert path[|prefix| + 1..hi] == name;
    var r := LastSlashBefore(path, hi);
    assert path[..hi][|prefix|] == '/';
  }

  /** The pipe of the small colour stream is named "hires_small_color". */
  lemma HiresSmallColorName()
    ensures CamName("/run/mpa/hires_small_color/") == "hires_small_color"
  {
    var name := "hires_small_color";
    assert "/run/mpa" + "/" + name + "/" == "/run/mpa/hires_small_color/";
    assert forall k :: 0 <= k < |name| ==> name[k] != '/';
    CamNameOfPipeDirectory("/run/mpa", name);
  }
}
