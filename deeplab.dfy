/**
 * The DeepLab segmentation helper: every pixel of the network's class map
 * is painted with its class colour from a fixed 19-colour table, the
 * colour map is blended into the preprocessed image, a 110-pixel border
 * on the right holds a legend of label names in their class colours, and
 * the preprocessed image is published with a rewritten header.
 */
module DeepLab {
  import opened Common
  import Utils
  import ModelHelperBase

  /** One pixel: the three colour bytes in image channel order. */
  datatype Colour = Colour(c0: int, c1: int, c2: int)

  /**
   * The colour table of the 19 Cityscapes classes. The source keeps it as a
   * flat table of 57 bytes, three per class; entry c here holds bytes 3c,
   * 3c + 1 and 3c + 2 (see ColorMapByte).
   */
  const Palette: seq<Colour> := [
    Colour(139, 0, 0), Colour(255, 0, 0), Colour(255, 99, 71), Colour(250, 128, 114), Colour(255, 140, 0),
    Colour(255, 255, 0), Colour(189, 183, 107), Colour(154, 205, 50), Colour(0, 255, 0), Colour(0, 100, 0),
    Colour(0, 250, 154), Colour(0, 128, 128), Colour(30, 144, 255), Colour(25, 25, 112), Colour(138, 43, 226),
    Colour(75, 0, 130), Colour(139, 0, 139), Colour(238, 130, 238), Colour(255, 20, 147)]

  /** Classes that have a colour. */
  const ColorCount: nat := 19

  /** Bytes in the flat colour table. */
  const ColorMapLength: nat := 57

  /** Width of the legend border added on the right of the image. */
  const RightPixelBorder: nat := 110

  /** Column of the legend text, and the height of one legend line. */
  const LegendX: int := 325
  const LegendLineHeight: int := 16

  /** Byte k of the flat colour table. */
  function ColorMapByte(k: nat): int
    requires k < ColorMapLength
  {
    var colour := Palette[k / 3];
    if k % 3 == 0 then colour.c0 else if k % 3 == 1 then colour.c1 else colour.c2
  }

  /** The colour of class c. */
  function ClassColour(c: int): Colour
    requires 0 <= c < ColorCount
  {
    Palette[c]
  }

  /** The table holds three bytes for each class, and class c's colour is made of bytes 3c, 3c + 1 and 3c + 2. */
  lemma ClassColourBytes(c: int)
    requires 0 <= c < ColorCount
    ensures |Palette| == ColorCount && ColorMapLength == 3 * ColorCount
    ensures ClassColour(c) == Colour(ColorMapByte(3 * c), ColorMapByte(3 * c + 1), ColorMapByte(3 * c + 2))
  {
    assert (3 * c) / 3 == c && (3 * c + 1) / 3 == c && (3 * c + 2) / 3 == c;
  }

  /** Every one of the first n entries of the class map names a coloured class. */
  predicate ClassesInRange(classes: seq<int>, n: nat)
    requires n <= |classes|
  {
    forall k :: 0 <= k < n ==> 0 <= classes[k] < ColorCount
  }

  /** Row i, column j of an n-wide square map lies inside its n * n entries. */
  lemma SquareIndex(i: nat, j: nat, n: nat)
    requires i < n && j < n
    ensures i * n + j < n * n
  {
    assert i * n + j < i * n + n == (i + 1) * n <= n * n;
  }

  /** The class of pixel (row i, column j) of an n * n class map, stored row after row. */
  function PixelClass(classes: seq<int>, n: nat, i: nat, j: nat): (c: int)
    requires i < n && j < n && n * n <= |classes| && ClassesInRange(classes, n * n)
    ensures 0 <= c < ColorCount
  {
    SquareIndex(i, j, n);
    classes[i * n + j]
  }

  /** The colour the overlay gives pixel (row i, column j): that of its class. */
  function PixelColour(classes: seq<int>, n: nat, i: nat, j: nat): Colour
    requires i < n && j < n && n * n <= |classes| && ClassesInRange(classes, n * n)
  {
    ClassColour(PixelClass(classes, n, i, j))
  }

  /**
   * The colour pass: a fresh black image of `height` rows and `width`
   * columns whose pixel in row i, column j takes the colour of class
   * classes[i * width + j]. The loops run rows up to the model width and
   * columns up to the model height, so the image is covered (and stays in
   * bounds) only for a square model.
   */
  method ColourOverlay(classes: seq<int>, width: nat, height: nat) returns (temp: array2<Colour>)
    requires width == height
    requires width * height <= |classes| && ClassesInRange(classes, width * height)
    ensures fresh(temp) && temp.Length0 == height && temp.Length1 == width
    ensures forall i, j :: 0 <= i < height && 0 <= j < width ==> temp[i, j] == PixelColour(classes, width, i, j)
  {
    temp := new Colour[height, width]((i, j) => Colour(0, 0, 0));
    var i := 0;
    while i < width
      invariant 0 <= i <= width
      invariant forall r, c :: 0 <= r < i && 0 <= c < width ==> temp[r, c] == PixelColour(classes, width, r, c)
    {
      ColourRow(temp, classes, i, width);
      i := i + 1;
    }
  }

  /** The inner loop of the colour pass: row i of an n * n image. */
  method ColourRow(temp: array2<Colour>, classes: seq<int>, i: nat, n: nat)
    requires temp.Length0 == n && temp.Length1 == n && i < n
    requires n * n <= |classes| && ClassesInRange(classes, n * n)
    modifies temp
    ensures forall c :: 0 <= c < n ==> temp[i, c] == PixelColour(classes, n, i, c)
    ensures forall r, c :: 0 <= r < n && 0 <= c < n && r != i ==> temp[r, c] == old(temp[r, c])
  {
    var j := 0;
    while j < n
      invariant 0 <= j <= n
      invariant forall c :: 0 <= c < j ==> temp[i, c] == PixelColour(classes, n, i, c)
      invariant forall r, c :: 0 <= r < n && 0 <= c < n && r != i ==> temp[r, c] == old(temp[r, c])
    {
      temp[i, j] := PixelColour(classes, n, i, j);
      j := j + 1;
    }
  }

  /** One legend line: the text, its anchor point and its colour. */
  datatype LegendEntry = LegendEntry(text: string, x: int, y: int, colour: Colour)

  /** The legend line of class i: its label, one line further down per class, in the class colour. */
  function LegendEntryAt(labels: seq<string>, i: nat): LegendEntry
    requires i < |labels| && i < ColorCount
  {
    LegendEntry(labels[i], LegendX, LegendLineHeight * (i + 1), ClassColour(i))
  }

  /** The legend of the first n labels. */
  function Legend(labels: seq<string>, n: nat): (legend: seq<LegendEntry>)
    requires n <= |labels| && n <= ColorCount
    ensures |legend| == n && forall i :: 0 <= i < n ==> legend[i] == LegendEntryAt(labels, i)
  {
    if n == 0 then [] else Legend(labels, n - 1) + [LegendEntryAt(labels, n - 1)]
  }

  /** One more label adds its line at the end. */
  lemma LegendStep(labels: seq<string>, n: nat)
    requires n < |labels| && n < ColorCount
    ensures Legend(labels, n + 1) == Legend(labels, n) + [LegendEntryAt(labels, n)]
  {
  }

  /**
   * The legend loop as written: one line for every entry of the label list,
   * padding included, with colour bytes 3i .. 3i + 2 of the table. It stays
   * inside the table only for lists of at most 19 labels.
   */
  method DrawLegendAsWritten(labels: seq<string>) returns (legend: seq<LegendEntry>)
    requires 3 * |labels| <= ColorMapLength
    ensures legend == Legend(labels, |labels|)
  {
    legend := [];
    var i := 0;
    while i < |labels|
      invariant 0 <= i <= |labels|
      invariant legend == Legend(labels, i)
    {
      var colour := ClassColour(i);
      LegendStep(labels, i);
      legend := legend + [LegendEntry(labels[i], LegendX, LegendLineHeight * (i + 1), colour)];
      i := i + 1;
    }
  }

  /**
   * A labels file of 17 to 19 lines (the full Cityscapes list has 19) is
   * padded to 32 labels, so the as-written legend loop reads colour bytes
   * up to index 95 of a 57-byte table.
   */
  lemma LegendAsWrittenOverrunsTable(lines: seq<string>)
    requires 16 < |lines| <= ColorCount
    ensures |Utils.PaddedLabels(lines)| == 32
    ensures 3 * |Utils.PaddedLabels(lines)| > ColorMapLength
  {
    var p := |Utils.PaddedLabels(lines)|;
    assert p % 16 == 0 && 16 < p < 36;
  }

  /** The number of legend lines drawn: the real labels, at most one per colour. */
  function LegendSize(labelCount: nat): (n: nat)
    ensures n <= labelCount && n <= ColorCount
    ensures n == labelCount || n == ColorCount
  {
    if labelCount < ColorCount then labelCount else ColorCount
  }

  /** The legend loop over the real labels only, each in its class colour. */
  method DrawLegend(labels: seq<string>, labelCount: nat) returns (legend: seq<LegendEntry>)
    requires labelCount <= |labels|
    ensures legend == Legend(labels, LegendSize(labelCount))
  {
    var n := LegendSize(labelCount);
    legend := [];
    var i := 0;
    while i < n
      invariant 0 <= i <= n
      invariant legend == Legend(labels, i)
    {
      LegendStep(labels, i);
      legend := legend + [LegendEntry(labels[i], LegendX, LegendLineHeight * (i + 1), ClassColour(i))];
      i := i + 1;
    }
  }

  /**
   * With the labels read from a file of at most 19 lines, the legend shows
   * exactly the file's lines, in order, and nothing of the padding.
   */
  lemma LegendShowsFileLines(lines: seq<string>)
    requires |lines| <= ColorCount
    ensures var legend := Legend(Utils.PaddedLabels(lines), LegendSize(|lines|));
            |legend| == |lines| && forall i :: 0 <= i < |lines| ==> legend[i].text == lines[i]
  {
    var padded := Utils.PaddedLabels(lines);
    assert forall i :: 0 <= i < |lines| ==> padded[i] == padded[..|lines|][i];
  }

  /** Where the as-written loop stays in bounds (a 0- or 16-line file), it draws the same legend. */
  lemma LegendAgreesWhenUnpadded(lines: seq<string>)
    requires |lines| <= ColorCount && |lines| % Utils.LabelPadding == 0
    ensures Utils.PaddedLabels(lines) == lines
    ensures Legend(Utils.PaddedLabels(lines), |Utils.PaddedLabels(lines)|) == Legend(lines, LegendSize(|lines|))
  {
    Utils.PaddingOnlyWhenNeeded(lines);
  }

  /**
   * A legend line is drawn in exactly the colour the overlay paints the
   * pixels of its class with, and names that class.
   */
  lemma LegendMatchesOverlay(labels: seq<string>, count: nat, classes: seq<int>, n: nat, i: nat, j: nat)
    requires count <= |labels| && count <= ColorCount
    requires i < n && j < n && n * n <= |classes| && ClassesInRange(classes, n * n)
    requires PixelClass(classes, n, i, j) < count
    ensures Legend(labels, count)[PixelClass(classes, n, i, j)].colour == PixelColour(classes, n, i, j)
    ensures Legend(labels, count)[PixelClass(classes, n, i, j)].text == labels[PixelClass(classes, n, i, j)]
  {
  }

  /**
   * The header of the published image: RGB, the model width plus the legend
   * border wide, the model height high, tightly packed rows; the capture
   * time and frame number are kept.
   */
  function OutputMeta(meta: FrameMeta, modelWidth: int, modelHeight: int): (r: FrameMeta)
    ensures r.format == Rgb && r.width == modelWidth + RightPixelBorder && r.height == modelHeight
    ensures r.stride == 3 * r.width && r.sizeBytes == r.height * r.stride
    ensures r.timestampNs == meta.timestampNs && r.frameId == meta.frameId
  {
    var width := modelWidth + RightPixelBorder;
    meta.(format := Rgb, width := width, height := modelHeight, stride := width * 3,
          sizeBytes := modelHeight * width * 3)
  }

  /** The per-frame parameters worker hands to postprocess: the frame header, rewritten in place. */
  class DeepLabParams {
    var meta: FrameMeta

    constructor (meta: FrameMeta)
      ensures this.meta == meta
    {
      this.meta := meta;
    }
  }

  /** The segmentation helper: the base helper's state and the labels. */
  class DeepLabHelper {
    const base: ModelHelperBase.ModelHelper
    var labels: seq<string>
    var labelCount: nat

    ghost predicate Valid()
      reads this
    {
      labelCount <= |labels|
    }

    /** The constructor reads the labels file `labelsFile`; the process exits when that fails. */
    constructor (base: ModelHelperBase.ModelHelper, labelsFile: Option<seq<string>>)
      requires labelsFile.Some?
      ensures Valid() && this.base == base
      ensures labels == Utils.PaddedLabels(labelsFile.value) && labelCount == |labelsFile.value|
    {
      this.base := base;
      var status, newLabels, count := Utils.ReadLabelsFile(labelsFile, [], Some(0));
      labels := newLabels;
      labelCount := count.value;
    }

    /**
     * postprocess on the class map `classes`: the colour overlay, the legend
     * lines, and the frame header in `params` rewritten for the bordered
     * image; it always succeeds.
     */
    method Postprocess(classes: seq<int>, params: DeepLabParams) returns (ok: bool, overlay: array2<Colour>, legend: seq<LegendEntry>)
      requires Valid() && base.modelWidth == base.modelHeight
      requires base.modelWidth * base.modelHeight <= |classes|
      requires ClassesInRange(classes, base.modelWidth * base.modelHeight)
      modifies params
      ensures ok && fresh(overlay)
      ensures overlay.Length0 == base.modelHeight && overlay.Length1 == base.modelWidth
      ensures forall i, j :: 0 <= i < base.modelHeight && 0 <= j < base.modelWidth ==>
        overlay[i, j] == PixelColour(classes, base.modelWidth, i, j)
      ensures legend == Legend(labels, LegendSize(labelCount))
      ensures params.meta == OutputMeta(old(params.meta), base.modelWidth, base.modelHeight)
    {
      overlay := ColourOverlay(classes, base.modelWidth, base.modelHeight);
      legend := DrawLegend(labels, labelCount);
      var m := params.meta;
      m := m.(format := Rgb);
      m := m.(width := base.modelWidth + RightPixelBorder);
      m := m.(height := base.modelHeight);
      m := m.(stride := m.width * 3);
      m := m.(sizeBytes := m.height * m.width * 3);
      params.meta := m;
      ok := true;
    }

    /**
     * worker: postprocess with the frame header `meta`, then publish the
     * preprocessed image under the rewritten header, stamped with the clock
     * reading `clock`.
     */
    method Worker(classes: seq<int>, meta: FrameMeta, clock: int, outbox: Outbox) returns (ok: bool)
      requires Valid() && base.modelWidth == base.modelHeight
      requires base.modelWidth * base.modelHeight <= |classes|
      requires ClassesInRange(classes, base.modelWidth * base.modelHeight)
      modifies outbox
      ensures ok
      ensures outbox.entries == old(outbox.entries) +
        [Publish(ImageChannel, CameraFrame(OutputMeta(meta, base.modelWidth, base.modelHeight).(timestampNs := clock),
                                           PreprocessedImage))]
    {
      var params := new DeepLabParams(meta);
      var overlay, legend;
      ok, overlay, legend := Postprocess(classes, params);
      params.meta := params.meta.(timestampNs := clock);
      outbox.Write(Publish(ImageChannel, CameraFrame(params.meta, PreprocessedImage)));
    }
  }
}
