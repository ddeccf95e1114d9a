/**
 * The model-helper factory: a switch over the network name whose cases check
 * the category. Three cases lack a `break` after their category test, so a
 * mismatched category runs on into the next case label. The switch is
 * modelled case label by case label, so that fall-through is a call of the
 * following label.
 */
module Factory {
  import opened Common
  import Config

  /** The helper object the factory builds; a classification helper carries its tensor offset. */
  datatype HelperKind =
    | PoseNetHelper | YoloV5Helper | YoloV8Helper | GenericDetectionHelper
    | ClassificationHelper(tensorOffset: int) | FastDepthHelper | DeepLabHelper
    | GateXyzHelper | GateYawHelper | GateBinHelper | ZeroshotHelper

  /** Position of a case label in the switch, in source order. */
  function CaseIndex(name: ModelName): nat
  {
    match name
    case PoseNet => 0
    case YoloV5 => 1
    case YoloV8 => 2
    case MobileNet => 3
    case FastDepth => 4
    case DeepLab => 5
    case EfficientNet => 6
    case YoloV11 => 7
    case GateXyz => 8
    case GateYaw => 9
    case GateBin => 10
    case Zeroshot => 11
    case Placeholder => 12
  }

  /**
   * The helper the switch yields when control enters at case label `entry`
   * with category `category`; None is the nullptr after a `break` or after
   * falling off the end of the switch.
   */
  function SwitchFrom(entry: ModelName, category: ModelCategory): Option<HelperKind>
    decreases 12 - CaseIndex(entry)
  {
    match entry
    case PoseNet => if category == Pose then Some(PoseNetHelper) else None
    case YoloV5 => if category == ObjectDetection then Some(YoloV5Helper) else None
    case YoloV8 => if category == ObjectDetection then Some(YoloV8Helper) else None
    case MobileNet =>
      if category == ObjectDetection then Some(GenericDetectionHelper)
      else if category == Classification then Some(ClassificationHelper(1))
      else None
    case FastDepth => if category == MonoDepth then Some(FastDepthHelper) else None
    // no break: falls into EFFICIENT_NET
    case DeepLab => if category == Segmentation then Some(DeepLabHelper) else SwitchFrom(EfficientNet, category)
    // no break: falls into YOLOV11
    case EfficientNet => if category == Classification then Some(ClassificationHelper(0)) else SwitchFrom(YoloV11, category)
    // no break: falls into GATE_XYZ
    case YoloV11 => if category == ObjectDetection then Some(YoloV8Helper) else SwitchFrom(GateXyz, category)
    case GateXyz => Some(GateXyzHelper)
    case GateYaw => Some(GateYawHelper)
    case GateBin => Some(GateBinHelper)
    case Zeroshot => if category == ObjectDetection then Some(ZeroshotHelper) else None
    case Placeholder => if category == ObjectDetection then Some(GenericDetectionHelper) else None
  }

  /** The category each network is meant to be run with. */
  function HomeCategory(name: ModelName): ModelCategory
  {
    match name
    case PoseNet => Pose
    case FastDepth => MonoDepth
    case DeepLab => Segmentation
    case EfficientNet => Classification
    case _ => ObjectDetection
  }

  predicate IsGate(name: ModelName)
  {
    name == GateXyz || name == GateYaw || name == GateBin
  }

  /** `create_model_helper` as written, fall-through included. */
  function CreateModelHelper(name: ModelName, category: ModelCategory): (h: Option<HelperKind>)
    ensures name == YoloV5 && category == ObjectDetection ==> h == Some(YoloV5Helper)
    ensures (name == YoloV8 || name == YoloV11) && category == ObjectDetection ==> h == Some(YoloV8Helper)
    ensures (name == MobileNet || name == Placeholder) && category == ObjectDetection ==> h == Some(GenericDetectionHelper)
    ensures name == PoseNet && category == Pose ==> h == Some(PoseNetHelper)
    ensures name == DeepLab && category == Segmentation ==> h == Some(DeepLabHelper)
    ensures name == FastDepth && category == MonoDepth ==> h == Some(FastDepthHelper)
    ensures name == Zeroshot && category == ObjectDetection ==> h == Some(ZeroshotHelper)
    ensures name == MobileNet && category == Classification ==> h == Some(ClassificationHelper(1))
    ensures name == EfficientNet && category == Classification ==> h == Some(ClassificationHelper(0))
    ensures name == GateXyz ==> h == Some(GateXyzHelper)
    ensures name == GateYaw ==> h == Some(GateYawHelper)
    ensures name == GateBin ==> h == Some(GateBinHelper)
    ensures name in {PoseNet, YoloV5, YoloV8, FastDepth, Zeroshot, Placeholder} && category != HomeCategory(name) ==> h == None
    ensures name == MobileNet && category !in {ObjectDetection, Classification} ==> h == None
  {
    SwitchFrom(name, category)
  }

  /** Entering DEEPLAB with any category but segmentation runs into later cases. */
  lemma DeepLabFallsThrough()
    ensures CreateModelHelper(DeepLab, ObjectDetection) == Some(YoloV8Helper)
    ensures CreateModelHelper(DeepLab, Classification) == Some(ClassificationHelper(0))
    ensures CreateModelHelper(DeepLab, Pose) == Some(GateXyzHelper)
    ensures CreateModelHelper(DeepLab, MonoDepth) == Some(GateXyzHelper)
    ensures CreateModelHelper(EfficientNet, ObjectDetection) == Some(YoloV8Helper)
    ensures CreateModelHelper(YoloV11, Segmentation) == Some(GateXyzHelper)
  {
  }

  /**
   * The factory with a `break` after every category test, so that a
   * mismatched category gives nullptr.
   */
  function CreateModelHelperStrict(name: ModelName, category: ModelCategory): (h: Option<HelperKind>)
    ensures h.Some? ==> IsGate(name) || category == HomeCategory(name) ||
                        (name == MobileNet && category == Classification)
    ensures IsGate(name) || category == HomeCategory(name) ==> h.Some?
    ensures name == DeepLab ==> h == if category == Segmentation then Some(DeepLabHelper) else None
    ensures name == EfficientNet ==> h == if category == Classification then Some(ClassificationHelper(0)) else None
    ensures name == YoloV11 ==> h == if category == ObjectDetection then Some(YoloV8Helper) else None
    ensures !(name in {DeepLab, EfficientNet, YoloV11}) ==> h == CreateModelHelper(name, category)
  {
    match name
    case DeepLab => if category == Segmentation then Some(DeepLabHelper) else None
    case EfficientNet => if category == Classification then Some(ClassificationHelper(0)) else None
    case YoloV11 => if category == ObjectDetection then Some(YoloV8Helper) else None
    case _ => SwitchFrom(name, category)
  }

  /** The two factories differ exactly on the categories the missing breaks let through. */
  lemma {:induction false} StrictDiffersOnlyOnFallThrough(name: ModelName, category: ModelCategory)
    ensures CreateModelHelper(name, category) != CreateModelHelperStrict(name, category) <==>
              name in {DeepLab, EfficientNet, YoloV11} && category != HomeCategory(name)
  {
    if name == DeepLab && category != Segmentation {
      assert SwitchFrom(EfficientNet, category).Some? by { assert SwitchFrom(GateXyz, category).Some?; }
    } else if name == EfficientNet && category != Classification {
      assert SwitchFrom(YoloV11, category).Some?;
    } else if name == YoloV11 && category != ObjectDetection {
      assert SwitchFrom(GateXyz, category).Some?;
    }
  }

  /**
   * Every (name, category) pair the shipped model table can produce builds
   * a helper, and the same one with or without the missing breaks: the
   * fall-through is unreachable from the configured paths.
   */
  lemma {:induction false} ConfiguredModelsAvoidFallThrough(model: string)
    ensures var s := Config.InitializeModelSettings(model, NoNormalization);
      CreateModelHelper(s.name, s.category).Some? &&
      CreateModelHelper(s.name, s.category) == CreateModelHelperStrict(s.name, s.category)
  {
    var s := Config.InitializeModelSettings(model, NoNormalization);
    Config.SettingsAreTabledOrPlaceholder(model, NoNormalization);
    StrictDiffersOnlyOnFallThrough(s.name, s.category);
    if s.name != Placeholder {
      var k :| 0 <= k < |Config.KnownModels| && Config.KnownModels[k] == (model, s);
      assert k in {0, 1, 2, 3, 4, 5, 6, 7, 8, 9, 10, 11, 12};
    }
  }
}
