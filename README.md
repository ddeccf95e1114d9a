# voxl-tflite-server, modelled in Dafny

The server reads camera frames from a pipe and runs a TensorFlow Lite
network on them. It publishes two things to output pipes: the annotated
image on the image channel (0) and network-specific records on the
detection channel (1). This project models the server's sequential
bookkeeping and its per-network decode layer:

- **start-up configuration**: the delegate name, the table from model path
  to (network, category, normalisation), the camera name taken from the
  input pipe path, and the helper factory with its missing `break`s;
- **frame ingestion**: the camera callback's drop policies and the
  24-slot camera ring it writes into;
- **the three-stage pipeline**: the preprocess cursor that chases the
  ring's insert index, two hand-off queues trimmed to their newest item,
  and the inference and postprocess steps, with the threads replaced by
  explicit step calls;
- **the base model helper**: the first-frame drop, the frame-header rewrite,
  and the copy of the preprocessed image into float32 / int8 / uint8 input
  tensors with their normalisation;
- **typed tensor access**: the element count and the batch offset;
- **the labels reader**: padding the label list to a multiple of 16;
- **the monotonic clock conversion**: unsigned 64-bit nanoseconds;
- **the per-network helpers**: YOLOv5 (three-scale anchor decode,
  score sort, intersection-over-union and the greedy suppression sweep),
  YOLOv8/YOLOv11 (transposed candidate decode, external NMS), the generic
  SSD-style detector, the classifier, DeepLab segmentation (colour overlay
  and legend), PoseNet (skeleton edges and joint dots), the zeroshot
  control network and the three gate networks, each with its worker's
  publish rule.

The modules follow the source files, mostly one module per file:
`Config`, `Factory`, `Ingest`, `Pipeline`, `ModelHelperBase`,
`TensorAccess`, `Utils`, `YoloV8`, `ObjectDetection`, `Classification`,
`DeepLab`, `PoseNet` and `Zeroshot`. The YOLOv5 helper is split into
three modules (`YoloV5Decode`, `YoloV5Nms` and `YoloV5`); the three gate
helpers, which differ only in what they write, share `Gates`; and
`Common` holds the vocabulary and the output log that several files
share.

The model keeps the source's form:

- Objects whose fields change become classes with `modifies` frames. These
  are the camera ring, the camera callback, the pipeline, the helpers and
  the output log.
- Loops become methods with invariants. Each method is proved equal to a
  specification function, and the properties are lemmas about that
  function. The specification is recursive where the loop accumulates
  (`Flatten`, `KeptUpTo`, `Legend`, `Detections`,
  `Product`) and pointwise or closed-form where each step writes its own
  place (`PixelColour`, the control layout `4i + j`, the row copies, the
  joint slots, `Newest`).
- Tensor values and thresholds are `real`. Every C++ float-to-int cast is
  `Trunc` (toward zero), and integer division is `DivTrunc`.
- The output pipes are one append-only log (`Common.Outbox`).
- The clock readings the workers stamp on records are parameters.

## Model

| member | source | states |
|---|---|---|
| Common.Outbox.Write | voxl-tflite-server/src/model_helper/yolov5_model_helper.cpp:28-35 | a pipe write appends exactly one entry to the output log and changes nothing else |
| Common.DetectorWrites | voxl-tflite-server/src/model_helper/yolov5_model_helper.cpp:23-38 | an object detector writes one batch to the detection channel only when it found something, and always writes the output image last, stamped with the clock reading instead of the capture time |
| Common.TruncBounds | voxl-tflite-server/src/model_helper/yolov5_model_helper.cpp:159-168 | the float-to-int cast drops the fraction toward zero and never changes the sign |
| Common.DivTrunc | voxl-tflite-server/src/model_helper/yolov5_model_helper.cpp:169-170 | C integer division by a positive divisor rounds toward zero, for negative dividends as well |
| Common.FindBlank | voxl-tflite-server/src/model_helper/generic_object_detection_model_helper.cpp:98-99 | `find(" ")` reports no blank exactly when there is none; otherwise it reports the first blank |
| Common.StripSpaces | voxl-tflite-server/src/model_helper/generic_object_detection_model_helper.cpp:100-102 | erasing `isspace` characters leaves only non-space characters of the input, and leaves a space-free string unchanged |
| Common.StripSpacesConcat | voxl-tflite-server/src/model_helper/generic_object_detection_model_helper.cpp:100-102 | erasing works piece by piece: the result for a + b is the result for a followed by the result for b, so kept characters keep their order |
| Common.StripSpacesChar | voxl-tflite-server/src/model_helper/generic_object_detection_model_helper.cpp:100-102 | a single character is erased if and only if it is an `isspace` character |
| Common.TwoWordName | voxl-tflite-server/src/model_helper/generic_object_detection_model_helper.cpp:100-102 | two space-free words joined by a blank come out as the two words run together |
| Common.ClassNameOf | voxl-tflite-server/src/model_helper/yolov8_model_helper.cpp:139-144 | the class name contains no whitespace; a label without a blank is taken whole, because npos + 1 wraps to 0 |
| Common.ClassNameAfterFirstBlank | voxl-tflite-server/src/model_helper/generic_object_detection_model_helper.cpp:98-102 | a label "id name" whose id has no blank is shown as the name with its whitespace erased |
| Config.SetDelegate | voxl-tflite-server/src/main.cpp:278-285 | "cpu" selects XNNPACK and "nnapi" selects NNAPI; every other name selects the GPU delegate (all three directions are if-and-only-if) |
| Config.InitializeModelSettings | voxl-tflite-server/src/main.cpp:287-386 | a known model path gets exactly its table row; an unknown path gets the placeholder object detector and keeps the caller's normalisation |
| Config.GatePathsAreUnnormalisedDetectors | voxl-tflite-server/src/main.cpp:287-386 | the three gate model paths configure gate networks in the detection category without normalisation, whatever the previous setting |
| Config.SettingsAreTabledOrPlaceholder | voxl-tflite-server/src/main.cpp:287-386 | for every path the settings are one row of the table or the placeholder detector |
| Config.LastSlashBefore | voxl-tflite-server/src/main.cpp:92-96 | `rfind('/')` from a position reports the last '/' before it, or none exactly when there is no '/' there |
| Config.NameStart | voxl-tflite-server/src/main.cpp:92-96 | the name starts just after a '/', or at 0 when there is no '/' (npos + 1 wraps), and no '/' lies between the start and the search position |
| Config.CamName | voxl-tflite-server/src/main.cpp:92-96 | the camera name contains no '/'; followed by the path's last character, it is a suffix of the path |
| Config.CamNameOfPipeDirectory | voxl-tflite-server/src/main.cpp:92-96 | a pipe directory "<prefix>/<name>/" is named by its last component |
| Config.HiresSmallColorName | voxl-tflite-server/src/main.cpp:92-96 | the pipe "/run/mpa/hires_small_color/" yields the camera name "hires_small_color" |
| Factory.CreateModelHelper | voxl-tflite-server/src/model_helper/model_helper.cpp:15-186 | each (network, category) pair gets its helper; gate networks ignore the category; DEEPLAB with segmentation, FAST_DEPTH with mono depth and ZEROSHOT with detection get their own helpers; POSENET, YOLOV5, YOLOV8, FAST_DEPTH, ZEROSHOT and PLACEHOLDER with a foreign category get nullptr |
| Factory.DeepLabFallsThrough | voxl-tflite-server/src/model_helper/model_helper.cpp:88-157 | as written, DEEPLAB with a non-segmentation category, EFFICIENT_NET with the detection category and YOLOV11 with the segmentation category fall into later case labels and build an unrelated helper |
| Factory.CreateModelHelperStrict | voxl-tflite-server/src/model_helper/model_helper.cpp:88-124 | with a `break` after each category test, a helper is built only for a gate, for a network in its own category, or for MOBILE_NET as a classifier, and always for the first two; DEEPLAB, EFFICIENT_NET and YOLOV11 get their own helper in their own category and nullptr otherwise, and every other network gets what the as-written switch gives |
| Factory.StrictDiffersOnlyOnFallThrough | voxl-tflite-server/src/model_helper/model_helper.cpp:88-124 | the as-written and the corrected factory differ exactly on DEEPLAB, EFFICIENT_NET and YOLOV11 with a foreign category |
| Factory.ConfiguredModelsAvoidFallThrough | voxl-tflite-server/src/main.cpp:287-386 | every configuration the model table can produce builds a helper, and the same helper with or without the missing breaks |
| Ingest.SkipWindowClimbs | voxl-tflite-server/src/main.cpp:226-233 | with skip_n_frames = N and no backlog, the skip counter climbs 0, 1, ..., N after a reset |
| Ingest.SkipWindowRepeats | voxl-tflite-server/src/main.cpp:226-233 | the counter pattern repeats every N + 1 callbacks, so one frame in N + 1 passes the skip window |
| Ingest.BacklogUsesOneSkipSlot | voxl-tflite-server/src/main.cpp:226-244 | a backlogged frame that passed the skip window is dropped and leaves the counter at 1, so the next frame passes after N - 1 skips instead of N |
| Ingest.SlotsDiffer | voxl-tflite-server/src/main.cpp:259-266 | two writes less than a ring lap apart go to different slots |
| Ingest.CameraQueue.constructor | voxl-tflite-server/include/model_helper/model_helper.h:53-63 | an empty ring of QueueSize slots with full-size pixel buffers and insert index 0 |
| Ingest.CameraQueue.Store | voxl-tflite-server/src/main.cpp:259-266 | the frame's header and first size_bytes pixels overwrite slot insert_idx, the rest of that buffer and every other slot are unchanged, and the index advances modulo 24; the ring keeps holding the last 24 writes |
| Ingest.CameraCallback.OnFrame | voxl-tflite-server/src/main.cpp:222-276 | the skip window, the backlog, the no-subscriber test and the size limit are tried in source order with their counter updates; a dropped frame leaves the ring alone, and an accepted one is stored in slot insert_idx |
| ModelHelperBase.RewriteMeta | voxl-tflite-server/src/model_helper/model_helper.cpp:279-357 | a frame header is rewritten exactly for the known formats; stereo formats are handled as their mono format, and the colour formats become RGB |
| ModelHelperBase.Normalize | voxl-tflite-server/src/model_helper/model_helper.cpp:428-447 | hard division maps bytes into [0, 1]; pixel-mean normalisation maps them into [-1, 128/127]; no normalisation keeps the byte value |
| ModelHelperBase.ToInt8 | voxl-tflite-server/src/model_helper/model_helper.cpp:450-463 | storing an unsigned byte into an int8 tensor gives a value in [-128, 127] that is congruent to it modulo 256 |
| ModelHelperBase.Flatten | voxl-tflite-server/src/model_helper/model_helper.cpp:428-480 | the row-by-row copy produces rows * rowElems values |
| ModelHelperBase.FlattenAt | voxl-tflite-server/src/model_helper/model_helper.cpp:428-480 | element i of image row r lands at position r * rowElems + i of the input tensor |
| ModelHelperBase.FlattenPrefix | voxl-tflite-server/src/model_helper/model_helper.cpp:428-480 | copying fewer rows writes a prefix of what copying more rows writes |
| ModelHelperBase.FlattenNext | voxl-tflite-server/src/model_helper/model_helper.cpp:428-480 | copying one more row appends that row's first rowElems bytes |
| ModelHelperBase.ModelHelper.constructor | voxl-tflite-server/src/model_helper/model_helper.cpp:187-196 | the helper keeps the model size and normalisation setting and has processed no frame |
| ModelHelperBase.ModelHelper.Preprocess | voxl-tflite-server/src/model_helper/model_helper.cpp:251-364 | every call counts the frame; the first frame only records the camera size and is rejected; a later frame is accepted exactly when its format is known, and then comes back with the rewritten header |
| ModelHelperBase.ModelHelper.RunInference | voxl-tflite-server/src/model_helper/model_helper.cpp:417-491 | success exactly for float32, int8 and uint8 inputs whose interpreter run succeeds; the matching tensor receives the flattened image (normalised for float32), and the other tensor is untouched |
| ModelHelperBase.ModelHelper.FillFloat | voxl-tflite-server/src/model_helper/model_helper.cpp:428-447 | the float32 row loop writes the normalised flattened image |
| ModelHelperBase.ModelHelper.FillBytes | voxl-tflite-server/src/model_helper/model_helper.cpp:450-480 | the 8-bit row loops write the flattened image as the tensor's element type |
| ModelHelperBase.CopyRowFloat | voxl-tflite-server/src/model_helper/model_helper.cpp:436-444 | the inner loop writes n normalised bytes at the offset and nothing else |
| ModelHelperBase.CopyRowBytes | voxl-tflite-server/src/model_helper/model_helper.cpp:455-461 | the inner loop writes n stored bytes at the offset and nothing else |
| TensorAccess.ElementCount | voxl-tflite-server/include/tensor_data.h:13-18 | the accumulating loop yields the product of every dimension after the first (1 when there is none) |
| TensorAccess.NhwcElementCount | voxl-tflite-server/include/tensor_data.h:13-18 | for an NHWC tensor one batch entry holds height * width * channels elements |
| TensorAccess.TensorData | voxl-tflite-server/include/tensor_data.h:10-30 | a data pointer is returned exactly when the tensor's type matches the requested type; it points at the tensor base plus batch index times the element count |
| Utils.PaddedLength | voxl-tflite-server/src/utils.cpp:34-39 | padding reaches the smallest multiple of 16 that is not below the count |
| Utils.PaddedLabels | voxl-tflite-server/src/utils.cpp:21-39 | the padded list holds the file's lines in order, then empty labels up to a multiple of 16 |
| Utils.PaddingOnlyWhenNeeded | voxl-tflite-server/src/utils.cpp:34-39 | padding leaves the list unchanged exactly when its length is already a multiple of 16 |
| Utils.ReadLabelsFile | voxl-tflite-server/src/utils.cpp:10-41 | a missing file is an error that leaves the result and the count untouched; otherwise the result is the padded lines and the count (when asked for) is the unpadded line count |
| Utils.NanosMonotonic | voxl-tflite-server/src/utils.cpp:43-48 | the reading is an unsigned 64-bit value, equal to sec * 10^9 + nsec when that fits |
| Utils.NanosRoundTrip | voxl-tflite-server/src/utils.cpp:43-48 | without wrap-around the reading divides back into its seconds and nanoseconds |
| Utils.ToUint64 | voxl-tflite-server/src/model_helper/gate_xyz_model_helper.cpp:35 | the cast to uint64 keeps non-negative values and wraps negative ones by 2^64 |
| Utils.Uint64RoundTrip | voxl-tflite-server/src/model_helper/gate_xyz_model_helper.cpp:35 | reading the unsigned value back as signed gives the original timestamp |
| YoloV5Decode.BestClassIsFirstMax | voxl-tflite-server/src/model_helper/yolov5_model_helper.cpp:143-155 | the class loop picks the first class with the greatest positive confidence, bounding every confidence of the window, and class 0 at 0.0 when none is positive |
| YoloV5Decode.ScanClasses | voxl-tflite-server/src/model_helper/yolov5_model_helper.cpp:143-155 | the class loop computes that choice and leaves behind the last confidence it read |
| YoloV5Decode.AnchorBoxPasses | voxl-tflite-server/src/model_helper/yolov5_model_helper.cpp:141-180 | an anchor yields a box exactly when its box confidence is at least 0.40 and its best class confidence at least 0.20; the box names that class and carries the last class's confidence as class_conf |
| YoloV5Decode.DecodeAnchor | voxl-tflite-server/src/model_helper/yolov5_model_helper.cpp:141-183 | the anchor body computes the anchor's box (corners from centre and truncated size) or nothing |
| YoloV5Decode.DecodeRunBoxesPass | voxl-tflite-server/src/model_helper/yolov5_model_helper.cpp:119-189 | every box of an anchor run passes both thresholds and names a valid class, and a run yields at most one box per anchor |
| YoloV5Decode.GridAnchorsIsProduct | voxl-tflite-server/src/model_helper/yolov5_model_helper.cpp:137-187 | a grid has grid_h * grid_w * 3 anchors |
| YoloV5Decode.DecodeNext | voxl-tflite-server/src/model_helper/yolov5_model_helper.cpp:141-185 | one anchor step appends the anchor's box, if any, and moves the index past the anchor's nClasses + 5 values |
| YoloV5Decode.DecodeCell | voxl-tflite-server/src/model_helper/yolov5_model_helper.cpp:139-186 | the three anchors of one cell are decoded in order |
| YoloV5Decode.DecodeRow | voxl-tflite-server/src/model_helper/yolov5_model_helper.cpp:137-187 | one grid row of cells is decoded in order |
| YoloV5Decode.GetBbox | voxl-tflite-server/src/model_helper/yolov5_model_helper.cpp:119-189 | get_bbox appends to the list exactly the boxes of the grid's anchors, in row, column, anchor order |
| YoloV5Decode.ScaleCounts | voxl-tflite-server/src/model_helper/yolov5_model_helper.cpp:65-74 | scale i has (model_w / stride) * (model_h / stride) * 3 anchors, for the strides 8, 16 and 32 |
| YoloV5Decode.DecodeScalesBoxesPass | voxl-tflite-server/src/model_helper/yolov5_model_helper.cpp:65-74 | every candidate of all scales passes both thresholds and names a valid class |
| YoloV5Decode.ScaleStride | voxl-tflite-server/src/model_helper/yolov5_model_helper.cpp:72-73 | the offset added per scale is exactly the values that scale's anchors take up |
| YoloV5Decode.DecodeScale | voxl-tflite-server/src/model_helper/yolov5_model_helper.cpp:67-73 | one scale turn appends that scale's boxes and advances the tensor offset past them |
| YoloV5Decode.DecodeAllScales | voxl-tflite-server/src/model_helper/yolov5_model_helper.cpp:65-74 | the scale loop yields the candidates of the three scales in tensor order |
| YoloV5Nms.SortByScore | voxl-tflite-server/src/model_helper/yolov5_model_helper.cpp:195-201 | the sort is a permutation of the candidates |
| YoloV5Nms.SortByScoreSorts | voxl-tflite-server/src/model_helper/yolov5_model_helper.cpp:195-201 | the sort yields a permutation of its input with non-increasing scores |
| YoloV5Nms.SortedIsFixed | voxl-tflite-server/src/model_helper/yolov5_model_helper.cpp:195-201 | a list already in score order is left as it is |
| YoloV5Nms.CalcIou | voxl-tflite-server/src/model_helper/yolov5_model_helper.cpp:232-247 | disjoint boxes have IoU 0 |
| YoloV5Nms.CalcIouSymmetric | voxl-tflite-server/src/model_helper/yolov5_model_helper.cpp:232-247 | IoU does not depend on the order of the two boxes |
| YoloV5Nms.CalcIouInUnit | voxl-tflite-server/src/model_helper/yolov5_model_helper.cpp:232-247 | wherever it is defined, IoU lies in [0, 1] |
| YoloV5Nms.CalcIouIdentical | voxl-tflite-server/src/model_helper/yolov5_model_helper.cpp:232-247 | a box of positive size has IoU 1 with itself |
| YoloV5Nms.ZeroUnionIsEmpty | voxl-tflite-server/src/model_helper/yolov5_model_helper.cpp:240-246 | a zero union area of overlapping boxes happens only for empty boxes, where the division is 0 / 0 |
| YoloV5Nms.KeptUpTo | voxl-tflite-server/src/model_helper/yolov5_model_helper.cpp:203-229 | the sweep outputs at most one box per position handled |
| YoloV5Nms.Nms | voxl-tflite-server/src/model_helper/yolov5_model_helper.cpp:191-230 | nms sorts the caller's list in place and outputs the boxes of the positions the is_merged sweep leaves unmerged |
| YoloV5Nms.MergeLower | voxl-tflite-server/src/model_helper/yolov5_model_helper.cpp:213-226 | the inner loop marks merged exactly the later unmerged boxes the current box suppresses |
| YoloV5Nms.KeptPairNotSuppressed | voxl-tflite-server/src/model_helper/yolov5_model_helper.cpp:203-229 | no kept box suppresses a later kept box |
| YoloV5Nms.DroppedHasSuppressor | voxl-tflite-server/src/model_helper/yolov5_model_helper.cpp:203-229 | every dropped box is suppressed by an earlier kept box |
| YoloV5Nms.KeptUpToPairwise | voxl-tflite-server/src/model_helper/yolov5_model_helper.cpp:203-229 | no output box suppresses a later output box |
| YoloV5Nms.KeptUpToSorted | voxl-tflite-server/src/model_helper/yolov5_model_helper.cpp:203-229 | the output is in score order |
| YoloV5Nms.KeptUpToIsSubsequence | voxl-tflite-server/src/model_helper/yolov5_model_helper.cpp:203-229 | the output is a subsequence of the sorted candidates |
| YoloV5Nms.KeptUpToStartsWithTop | voxl-tflite-server/src/model_helper/yolov5_model_helper.cpp:203-229 | the top-scoring box is always kept first |
| YoloV5Nms.NmsOutput | voxl-tflite-server/src/model_helper/yolov5_model_helper.cpp:191-230 | the output is a sub-multiset and subsequence of the sorted candidates, in score order, starting with the top box, with no box suppressing a later one |
| YoloV5Nms.NmsIdempotent | voxl-tflite-server/src/model_helper/yolov5_model_helper.cpp:191-230 | running nms on its own output changes nothing |
| YoloV5Nms.HalfOverlapKeepsBoth | voxl-tflite-server/src/model_helper/yolov5_model_helper.cpp:221-222 | at IoU exactly 0.5 the strict comparison keeps both boxes |
| YoloV5.DetectionsOf | voxl-tflite-server/src/model_helper/yolov5_model_helper.cpp:79-107 | one record per kept box |
| YoloV5.DetectionsOfAt | voxl-tflite-server/src/model_helper/yolov5_model_helper.cpp:79-107 | record i carries box i's class, label, corners x, y, x + w, y + h, class and box confidence, the camera, the clock reading and the frame number |
| YoloV5.FrameBoxesSound | voxl-tflite-server/src/model_helper/yolov5_model_helper.cpp:65-77 | every kept box of a frame passed both thresholds and names a valid class, and no kept box overlaps a later one by more than 0.5, across classes |
| YoloV5.ClassConfIsLastClass | voxl-tflite-server/src/model_helper/yolov5_model_helper.cpp:143-157 | a box's class_conf is the last class's confidence, not that of the class it names |
| YoloV5.DecodeFrame | voxl-tflite-server/src/model_helper/yolov5_model_helper.cpp:65-77 | decode then class-agnostic nms gives the frame's kept boxes, all naming valid classes |
| YoloV5.AssembleDetections | voxl-tflite-server/src/model_helper/yolov5_model_helper.cpp:79-107 | the record loop builds one record per kept box, in order |
| YoloV5.YoloV5Helper.constructor | voxl-tflite-server/src/model_helper/yolov5_model_helper.cpp:7-21 | the helper starts with the padded labels and the unpadded count |
| YoloV5.YoloV5Helper.Postprocess | voxl-tflite-server/src/model_helper/yolov5_model_helper.cpp:40-117 | fails exactly when the labels are empty and cannot be re-read; otherwise the detections are replaced by the records of the frame's kept boxes |
| YoloV5.YoloV5Helper.Worker | voxl-tflite-server/src/model_helper/yolov5_model_helper.cpp:23-38 | on failure nothing is published; otherwise the detector publish rule applies to the frame's records |
| YoloV8.TransposeAt | voxl-tflite-server/src/model_helper/yolov8_model_helper.cpp:63-77 | after the transpose, attribute k of candidate i is data[k * rows + i] |
| YoloV8.MaxLoc | voxl-tflite-server/src/model_helper/yolov8_model_helper.cpp:90-94 | minMaxLoc reports a position of the maximum score, the first one |
| YoloV8.CandidateOf | voxl-tflite-server/src/model_helper/yolov8_model_helper.cpp:86-112 | a candidate's class is its first highest score among the real labels, and its box is built from centre and size with truncation |
| YoloV8.KeptAboveThreshold | voxl-tflite-server/src/model_helper/yolov8_model_helper.cpp:94-112 | every kept candidate scored strictly above 0.45 and names a real label |
| YoloV8.KeptFromRows | voxl-tflite-server/src/model_helper/yolov8_model_helper.cpp:86-115 | every kept candidate is the reading of some row |
| YoloV8.KeptComplete | voxl-tflite-server/src/model_helper/yolov8_model_helper.cpp:86-115 | every row scoring above the threshold is kept |
| YoloV8.DecodeCandidates | voxl-tflite-server/src/model_helper/yolov8_model_helper.cpp:86-115 | the loop fills boxes, class ids and confidences with the kept candidates, as three aligned lists of equal length |
| YoloV8.DetectionsAtElement | voxl-tflite-server/src/model_helper/yolov8_model_helper.cpp:120-154 | record k reports the candidate at the k-th index NMS returned: corners, class, label, score and -1 as detection confidence |
| YoloV8.AssembleDetections | voxl-tflite-server/src/model_helper/yolov8_model_helper.cpp:120-156 | the record loop builds one record per NMS index, in index order |
| YoloV8.FrameDetectionsSound | voxl-tflite-server/src/model_helper/yolov8_model_helper.cpp:86-156 | every record of a frame reports a score above 0.45, a real label's class and -1 as detection confidence |
| YoloV8.DecodeFrame | voxl-tflite-server/src/model_helper/yolov8_model_helper.cpp:63-156 | transpose, candidate loop, NMS and record loop give the frame's records |
| YoloV8.YoloV8Helper.constructor | voxl-tflite-server/src/model_helper/yolov8_model_helper.cpp:5-20 | the helper starts with the padded labels and the unpadded count |
| YoloV8.YoloV8Helper.Postprocess | voxl-tflite-server/src/model_helper/yolov8_model_helper.cpp:39-160 | fails exactly when the labels are empty and cannot be re-read; otherwise the detections are replaced by the frame's records |
| YoloV8.YoloV8Helper.Worker | voxl-tflite-server/src/model_helper/yolov8_model_helper.cpp:22-37 | on failure nothing is published; otherwise the detector publish rule applies |
| ObjectDetection.Detections | voxl-tflite-server/src/model_helper/generic_object_detection_model_helper.cpp:60-115 | at most one record per examined index |
| ObjectDetection.DetectionsStep | voxl-tflite-server/src/model_helper/generic_object_detection_model_helper.cpp:73-115 | one more index appends its record exactly when its score is above 0.6 |
| ObjectDetection.AcceptedCount | voxl-tflite-server/src/model_helper/generic_object_detection_model_helper.cpp:73 | at most n of the first n indices are accepted |
| ObjectDetection.DetectionsCount | voxl-tflite-server/src/model_helper/generic_object_detection_model_helper.cpp:60-115 | there is one record per accepted index |
| ObjectDetection.DetectionsComplete | voxl-tflite-server/src/model_helper/generic_object_detection_model_helper.cpp:60-115 | every accepted index has its record in the list |
| ObjectDetection.DetectionsSound | voxl-tflite-server/src/model_helper/generic_object_detection_model_helper.cpp:67-115 | every record has a score above 0.6, -1 as detection confidence, a labelled class, the camera, the clock reading and the frame number |
| ObjectDetection.DecodeDetections | voxl-tflite-server/src/model_helper/generic_object_detection_model_helper.cpp:60-115 | the loop builds the records of the accepted indices in index order |
| ObjectDetection.ObjectDetectionHelper.constructor | voxl-tflite-server/src/model_helper/generic_object_detection_model_helper.cpp:5-19 | the helper starts with the padded labels, the unpadded count and no detections |
| ObjectDetection.ObjectDetectionHelper.Postprocess | voxl-tflite-server/src/model_helper/generic_object_detection_model_helper.cpp:38-129 | the detections are replaced by this frame's records; it always succeeds |
| ObjectDetection.ObjectDetectionHelper.Worker | voxl-tflite-server/src/model_helper/generic_object_detection_model_helper.cpp:21-36 | the detector publish rule applies to this frame's records |
| Classification.MaxElement | voxl-tflite-server/src/model_helper/generic_classification_model_helper.cpp:48-51 | max_element gives the first position of the greatest value |
| Classification.Classify | voxl-tflite-server/src/model_helper/generic_classification_model_helper.cpp:33-66 | the result is the first maximum of the 1000-score window from the tensor offset, with its score and its label |
| Classification.LabelCountsFromWindow | voxl-tflite-server/src/model_helper/generic_classification_model_helper.cpp:43-57 | the label index counts from the window start, so with offset 1 a maximum at tensor index 1 reports labels[0] |
| Classification.ClassifierWritesLikeEmptyDetector | voxl-tflite-server/src/model_helper/generic_classification_model_helper.cpp:22-31 | a classifier publishes only the output image, exactly as a detector that found nothing |
| DeepLab.ClassColourBytes | voxl-tflite-server/src/model_helper/deep_lab_model_helper.cpp:6-10 | the table has 3 bytes for each of the 19 classes, and class c's colour is bytes 3c .. 3c + 2 |
| DeepLab.SquareIndex | voxl-tflite-server/src/model_helper/deep_lab_model_helper.cpp:62-73 | on a square map, the index i * n + j of each visited pixel lies inside the map |
| DeepLab.PixelClass | voxl-tflite-server/src/model_helper/deep_lab_model_helper.cpp:62-73 | every pixel's class has a colour |
| DeepLab.ColourOverlay | voxl-tflite-server/src/model_helper/deep_lab_model_helper.cpp:60-73 | a fresh image in which each pixel has its class's colour |
| DeepLab.ColourRow | voxl-tflite-server/src/model_helper/deep_lab_model_helper.cpp:64-72 | the inner loop colours row i and leaves other rows alone |
| DeepLab.Legend | voxl-tflite-server/src/model_helper/deep_lab_model_helper.cpp:81-88 | the legend of n labels has one line per label, each one line lower and in its class's colour |
| DeepLab.LegendStep | voxl-tflite-server/src/model_helper/deep_lab_model_helper.cpp:81-88 | one more label appends its line |
| DeepLab.DrawLegendAsWritten | voxl-tflite-server/src/model_helper/deep_lab_model_helper.cpp:81-88 | the as-written loop draws a line for every entry of the padded label list |
| DeepLab.LegendAsWrittenOverrunsTable | voxl-tflite-server/src/model_helper/deep_lab_model_helper.cpp:81-88 | a 17- to 19-line labels file is padded to 32, so the as-written loop reads colour bytes beyond the 57-byte table |
| DeepLab.LegendSize | voxl-tflite-server/src/model_helper/deep_lab_model_helper.cpp:81-88 | the corrected legend has one line per real label, at most one per colour |
| DeepLab.DrawLegend | voxl-tflite-server/src/model_helper/deep_lab_model_helper.cpp:81-88 | the corrected loop draws the legend of the real labels only |
| DeepLab.LegendShowsFileLines | voxl-tflite-server/src/model_helper/deep_lab_model_helper.cpp:81-88 | the corrected legend shows exactly the file's lines, in order, and no padding |
| DeepLab.LegendAgreesWhenUnpadded | voxl-tflite-server/src/model_helper/deep_lab_model_helper.cpp:81-88 | where the as-written loop stays in bounds (a 0- or 16-line file), both legends agree |
| DeepLab.LegendMatchesOverlay | voxl-tflite-server/src/model_helper/deep_lab_model_helper.cpp:62-88 | a legend line has the colour the overlay gives its class's pixels, and names that class |
| DeepLab.OutputMeta | voxl-tflite-server/src/model_helper/deep_lab_model_helper.cpp:91-95 | the published header is RGB, model width + 110 wide, tightly packed, and keeps the capture time and frame number |
| DeepLab.DeepLabHelper.constructor | voxl-tflite-server/src/model_helper/deep_lab_model_helper.cpp:12-26 | the helper starts with the padded labels and the unpadded count |
| DeepLab.DeepLabHelper.Postprocess | voxl-tflite-server/src/model_helper/deep_lab_model_helper.cpp:49-98 | the overlay, the rewritten header and the corrected legend (one line per real label, see Findings); it always succeeds |
| DeepLab.DeepLabHelper.Worker | voxl-tflite-server/src/model_helper/deep_lab_model_helper.cpp:28-47 | publishes the preprocessed image once, under the rewritten header, stamped with the clock reading |
| PoseNet.JointLinesInRange | voxl-tflite-server/src/model_helper/posenet_model_helper.cpp:5-26 | the 16 skeleton edges join keypoints among the 17 |
| PoseNet.DecodeJoints | voxl-tflite-server/src/model_helper/posenet_model_helper.cpp:47-54 | joint i takes y from slot 3i and x from slot 3i + 1, both scaled and truncated, and its confidence from slot 3i + 2 |
| PoseNet.Xs | voxl-tflite-server/src/model_helper/posenet_model_helper.cpp:47-54 | 17 x coordinates, the i-th from slot 3i + 1 |
| PoseNet.Ys | voxl-tflite-server/src/model_helper/posenet_model_helper.cpp:47-54 | 17 y coordinates, the i-th from slot 3i |
| PoseNet.Confs | voxl-tflite-server/src/model_helper/posenet_model_helper.cpp:47-54 | 17 confidences, the i-th from slot 3i + 2 |
| PoseNet.DrawnEdges | voxl-tflite-server/src/model_helper/posenet_model_helper.cpp:56-68 | the drawn edges are among the considered ones |
| PoseNet.DrawnEdgesExactly | voxl-tflite-server/src/model_helper/posenet_model_helper.cpp:56-68 | an edge is drawn exactly when both of its ends have confidence of at least 0.2 |
| PoseNet.DottedJoints | voxl-tflite-server/src/model_helper/posenet_model_helper.cpp:70-77 | the dotted joints are among the considered ones |
| PoseNet.DottedJointsExactly | voxl-tflite-server/src/model_helper/posenet_model_helper.cpp:70-77 | a joint gets a dot exactly when its confidence is strictly above 0.2 |
| PoseNet.NoDotsAtThreshold | voxl-tflite-server/src/model_helper/posenet_model_helper.cpp:70-77 | no joint at or below 0.2 gets a dot |
| PoseNet.SegmentsOf | voxl-tflite-server/src/model_helper/posenet_model_helper.cpp:56-68 | one line per listed edge, between its endpoints' positions |
| PoseNet.DotsOf | voxl-tflite-server/src/model_helper/posenet_model_helper.cpp:70-77 | one dot per listed joint, at its position |
| PoseNet.DrawLines | voxl-tflite-server/src/model_helper/posenet_model_helper.cpp:56-68 | the edge loop draws the lines of exactly the confident edges, in skeleton order |
| PoseNet.DrawEdge | voxl-tflite-server/src/model_helper/posenet_model_helper.cpp:58-67 | one edge turn adds its line exactly when the edge is confident |
| PoseNet.DrawDots | voxl-tflite-server/src/model_helper/posenet_model_helper.cpp:70-77 | the joint loop draws dots on exactly the confident joints, in joint order |
| PoseNet.DrawJoint | voxl-tflite-server/src/model_helper/posenet_model_helper.cpp:72-76 | one joint turn adds its dot exactly when the joint is confident |
| PoseNet.AllConfidentDrawsSkeleton | voxl-tflite-server/src/model_helper/posenet_model_helper.cpp:56-68 | with every joint at 0.2 or more, the whole skeleton is drawn |
| PoseNet.DottedEndsDrawEdge | voxl-tflite-server/src/model_helper/posenet_model_helper.cpp:56-77 | an edge between two dotted joints is always drawn |
| PoseNet.ThresholdJointsDrawEdgesWithoutDots | voxl-tflite-server/src/model_helper/posenet_model_helper.cpp:56-77 | with every confidence exactly 0.2, the whole skeleton is drawn but no joint gets a dot |
| PoseNet.PoseNetHelper.Postprocess | voxl-tflite-server/src/model_helper/posenet_model_helper.cpp:33-83 | the lines and dots of the decoded pose; it always succeeds |
| PoseNet.PoseNetHelper.Worker | voxl-tflite-server/src/model_helper/posenet_model_helper.cpp:85-93 | publishes only the output image, stamped with the clock reading, and returns the skeleton lines and joint dots that `postprocess` draws |
| Zeroshot.ControlLayoutRowMajor | voxl-tflite-server/src/model_helper/zeroshot_model_helper.cpp:127-131 | command i, value j goes to position 4i + j of the 20-value control tensor, and no two share a position |
| Zeroshot.ZeroshotHelper.Controls | voxl-tflite-server/include/model_helper/zeroshot_model_helper.h:7-10 | the control history is 5 commands of 4 values, as stored |
| Zeroshot.ZeroshotHelper.constructor | voxl-tflite-server/src/model_helper/zeroshot_model_helper.cpp:12-13 | the helper starts with an all-zero, incomplete history |
| Zeroshot.ZeroshotHelper.UpdateControlBuffer | voxl-tflite-server/src/model_helper/zeroshot_model_helper.cpp:149-153 | the history becomes the given buffer and the flag the given value |
| Zeroshot.ZeroshotHelper.Preprocess | voxl-tflite-server/src/model_helper/zeroshot_model_helper.cpp:23-31 | exactly the base helper's preprocess |
| Zeroshot.ZeroshotHelper.Postprocess | voxl-tflite-server/src/model_helper/zeroshot_model_helper.cpp:16-21 | always succeeds |
| Zeroshot.ZeroshotHelper.RunInference | voxl-tflite-server/src/model_helper/zeroshot_model_helper.cpp:67-147 | succeeds exactly when the history is complete, the tensors exist, the image and control sizes match and the run succeeds; the image is copied scaled to [0, 1] once its size checks, and the history row after row once the control size checks |
| Zeroshot.ZeroshotHelper.FillControls | voxl-tflite-server/src/model_helper/zeroshot_model_helper.cpp:127-131 | the nested loop copies command i, value j to position 4i + j |
| Zeroshot.ZeroshotHelper.Worker | voxl-tflite-server/src/model_helper/zeroshot_model_helper.cpp:33-63 | an incomplete history publishes nothing; otherwise one command record from outputs 0-3 with the capture time as unsigned value |
| Gates.GatePostprocess | voxl-tflite-server/src/model_helper/gate_xyz_model_helper.cpp:18-23 | a gate postprocess always succeeds |
| Gates.GateWritesOneRecord | voxl-tflite-server/src/model_helper/gate_xyz_model_helper.cpp:25-40 | each gate worker writes exactly one gate record, to the detection channel and not the image channel, carrying the capture time as unsigned value; the yaw and bin workers need one output, the position worker three |
| Gates.GateRecordsCarryOutputs | voxl-tflite-server/src/model_helper/gate_xyz_model_helper.cpp:31-36 | the position record carries outputs 0, 1, 2 in order; the yaw and bin records carry output 0 |
| Pipeline.Newest | voxl-tflite-server/src/inference_handler.cpp:156-162 | a trim keeps the newest min(size, limit) items, in order |
| Pipeline.TrimFront | voxl-tflite-server/src/inference_handler.cpp:156-162 | the pop loop leaves exactly the newest QUEUE_LIMIT items |
| Pipeline.NewestIsStable | voxl-tflite-server/src/inference_handler.cpp:156-162 | trimming invents no items, and trimming again changes nothing |
| Pipeline.TrimAfterPushKeepsPushed | voxl-tflite-server/src/inference_handler.cpp:152-162 | right after a push, a trim to one item keeps exactly the pushed item |
| Pipeline.Pipeline.constructor | voxl-tflite-server/src/inference_handler.cpp:76 | the cursor starts at 0 and both queues are empty |
| Pipeline.Pipeline.PreprocessStep | voxl-tflite-server/src/inference_handler.cpp:76-121 | waits exactly when the cursor is on the insert index; otherwise reads the slot under the cursor, advances the cursor modulo 24, and enqueues the frame with its rewritten header only when preprocess accepts it |
| Pipeline.Pipeline.InferenceStep | voxl-tflite-server/src/inference_handler.cpp:137-162 | pops the oldest item; a failed inference drops it without trimming; a successful one forwards it with its time and trims both queues |
| Pipeline.Pipeline.PostprocessStep | voxl-tflite-server/src/inference_handler.cpp:185-187 | pops the oldest forwarded item, if any |
| Pipeline.StoreLap | voxl-tflite-server/src/main.cpp:259-266 | 24 stores bring the insert index back to where it started |
| Pipeline.LapLooksEmpty | voxl-tflite-server/src/inference_handler.cpp:82-87 | a caught-up consumer that finds exactly one lap of new frames sees none and waits: all 24 frames are lost to it |

## Left out

- Threads, mutexes and condition variables are not modelled; the three workers are sequential step methods. The `postprocess_finish` handshake and the wake-ups are left out too.
- TensorFlow Lite is not modelled: model load, delegates, tensor allocation and `Invoke`. Each interpreter run is a success flag given as a parameter.
- OpenCV is not modelled: resize, colour conversion, merge, blending, border padding and all drawing. Lines and dots are returned as values. The DeepLab overlay is returned as a colour image before blending, and its legend as text entries.
- `cv::dnn::NMSBoxes` is a function parameter that returns in-range indices. `cv::minMaxLoc` is taken to report the first maximum.
- Pipe I/O is an append-only log (`Common.Outbox`). Clock readings are parameters (`now` for records, `clock` for image timestamps). One reading stamps all records of a frame.
- Timing accumulators, `print_summary_stats`, the FPS overlay and debug printing are left out: they produce float timing output or text only.
- The ring slot and pipeline item: `preprocess` rewrites the ring slot's header in place through a reference, and the pipeline item copies the rewritten header. The model puts the rewritten header only on the pipeline item, so the slot keeps the header as written.
- Floating-point rounding is not modelled: values are `real`. Casts truncate toward zero (`Trunc`), and int32 overflow of the box arithmetic is not modelled.
- YoloV5Nms.SortByScore: std::sort leaves the order of equal scores unspecified; the model fixes one order (a stable insertion sort), so only permutation and score order are guaranteed.
- YoloV5Nms.CalcIou: the 0 / 0 case of two empty overlapping boxes is excluded by its precondition. The suppression test treats it as NaN, which exceeds no threshold.
- ObjectDetection.ObjectDetectionHelper.Postprocess (and its Worker): requires every accepted class index to name a label (`ClassesInRange`). The source indexes the label list with the network's class output without checking it, which is undefined for an index out of range.
- YoloV8.YoloV8Helper.Postprocess (and its Worker): requires a non-zero label count with 4 + label count at most the tensor's attribute count. The source takes label_count scores from each row whatever the tensor's shape, so a labels file longer than the model's class list reads into the next row.
- YoloV5.YoloV5Helper.Postprocess (and its Worker): requires the tensor to hold every value that the three scales' anchors stride over with the label count. The source strides by label_count without checking it against the tensor size.
- Classification.Classify: requires at least 1000 labels and 1000 + offset scores, which the source assumes without checking.
- DeepLab.ColourOverlay: requires a square model and class ids in the colour table, which the source assumes without checking.
- PoseNet.DecodeJoints: requires 51 tensor values, which the source assumes without checking.
- Config.CamName: requires a path other than "" and "/", on which the source pops from an empty string.
- Ingest.CameraQueue.Store: requires a frame of at most 12441600 bytes, which the callback checks before storing.
- DeepLab.DeepLabHelper.Postprocess: states the corrected legend (one line per real label, at most 19), not the source's loop over the padded label list. The extra padded labels are empty strings and draw no text; for a 17- to 19-line labels file the source's loop also reads past the colour table (see Findings), which the model cannot give a value to.
- Gates.GateXyzWrites, Gates.GateYawWrites and Gates.GateBinWrites carry no contract of their own; Gates.GateWritesOneRecord and Gates.GateRecordsCarryOutputs state what they write. The workers' return value, which is `true` on every path, is not represented; only Gates.GatePostprocess states its `true`.
- The Zeroshot image copy is element by element. The source's alternative for continuous images copies whole rows and yields the same values.
- YOLOv8's own `preprocess` and `run_inference` overrides (yolov8_model_helper.cpp:163-293) are not part of this model. They are a resize and colour conversion plus a fixed-size memcpy, both OpenCV and TensorFlow Lite work.
- The FastDepth helper, the JSON config file, the command-line parsing, image_utils and the Python scripts are not part of this model. They are float colour mapping, file I/O, getopt, drawing and network scripts.

## Findings

| source | as written | input that shows it | evidently intended | confidence | as-written member | corrected member |
|---|---|---|---|---|---|---|
| voxl-tflite-server/src/model_helper/model_helper.cpp:88-124 | the DEEPLAB, EFFICIENT_NET and YOLOV11 cases test the category but have no `break` when it does not match, so control falls into the next case label | DEEPLAB with the detection category builds a YOLOv8 helper; DEEPLAB with the pose category builds a gate helper | a mismatched category yields nullptr, as in the other cases | not executed | Factory.CreateModelHelper, Factory.DeepLabFallsThrough | Factory.CreateModelHelperStrict, Factory.StrictDiffersOnlyOnFallThrough, Factory.ConfiguredModelsAvoidFallThrough |
| voxl-tflite-server/src/model_helper/deep_lab_model_helper.cpp:81-88 | the legend loop runs over the padded label list and reads colour bytes 3i .. 3i + 2 of the 57-byte table | a 19-line Cityscapes labels file is padded to 32 labels, so the loop reads colour bytes up to index 95 | one legend line per real label, at most one per colour | not executed | DeepLab.DrawLegendAsWritten, DeepLab.LegendAsWrittenOverrunsTable | DeepLab.DrawLegend, DeepLab.LegendShowsFileLines |
