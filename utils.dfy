/**
 * Helpers shared by the model helpers: reading a labels file (modelled as
 * the file's lines, or None when the file cannot be opened) and padding the
 * label list to a multiple of 16, and the conversion of a monotonic clock
 * reading to unsigned 64-bit nanoseconds.
 */
module Utils {
  import opened Common

  /** TFLite status codes returned by the labels reader. */
  datatype Status = Ok | Error

  /** The label list is padded up to a multiple of this. */
  const LabelPadding: nat := 16

  /** The smallest multiple of 16 that is at least n. */
  function PaddedLength(n: nat): (p: nat)
    ensures p % LabelPadding == 0
    ensures n <= p < n + LabelPadding
    ensures n % LabelPadding == 0 ==> p == n
  {
    if n % LabelPadding == 0 then n else n + LabelPadding - n % LabelPadding
  }

  /** The lines of a labels file followed by empty labels up to the padded length. */
  function PaddedLabels(lines: seq<string>): (r: seq<string>)
    ensures |r| % LabelPadding == 0 && |lines| <= |r| < |lines| + LabelPadding
    ensures r[..|lines|] == lines
    ensures forall k :: |lines| <= k < |r| ==> r[k] == ""
  {
    lines + seq(PaddedLength(|lines|) - |lines|, _ => "")
  }

  /** Padding is the identity exactly on lists whose length is already a multiple of 16. */
  lemma PaddingOnlyWhenNeeded(lines: seq<string>)
    ensures PaddedLabels(lines) == lines <==> |lines| % LabelPadding == 0
  {
    if |lines| % LabelPadding == 0 {
      assert PaddedLabels(lines) == lines + [];
    }
  }

  /**
   * Read the labels file `file` into `result`. `countSlot` is the optional
   * found-count out-parameter: None stands for a null pointer, Some(v) for a
   * pointer to a variable currently holding v. A file that cannot be opened
   * leaves both untouched and reports an error.
   */
  method ReadLabelsFile(file: Option<seq<string>>, result: seq<string>, countSlot: Option<nat>)
    returns (status: Status, labels: seq<string>, count: Option<nat>)
    ensures status == Ok <==> file.Some?
    ensures file.None? ==> labels == result && count == countSlot
    ensures file.Some? ==> labels == PaddedLabels(file.value)
    ensures file.Some? ==> count == if countSlot.Some? then Some(|file.value|) else None
  {
    if file.None? {
      return Error, result, countSlot;
    }
    var lines := file.value;
    labels := [];
    var i := 0;
    while i < |lines|
      invariant 0 <= i <= |lines|
      invariant labels == lines[..i]
    {
      labels := labels + [lines[i]];
      i := i + 1;
    }
    count := countSlot;
    if count.Some? {
      count := Some(|labels|);
    }
    while |labels| % LabelPadding != 0
      invariant |lines| <= |labels| <= PaddedLength(|lines|)
      invariant labels[..|lines|] == lines
      invariant forall k :: |lines| <= k < |labels| ==> labels[k] == ""
      decreases PaddedLength(|lines|) - |labels|
    {
      labels := labels + [""];
    }
    assert |labels| == PaddedLength(|lines|);
    assert labels == PaddedLabels(lines);
    status := Ok;
  }

  const NanosPerSecond: int := 1000000000
  const Two64: int := 0x1_0000_0000_0000_0000

  /**
   * tv_sec * 10^9 + tv_nsec in unsigned 64-bit arithmetic. Reducing modulo
   * 2^64 once at the end gives the same value as the step-by-step wrapping
   * of the uint64 conversion, multiplication and addition.
   */
  function NanosMonotonic(sec: int, nsec: int): (t: int)
    ensures 0 <= t < Two64
    ensures 0 <= sec * NanosPerSecond + nsec < Two64 ==> t == sec * NanosPerSecond + nsec
  {
    (sec * NanosPerSecond + nsec) % Two64
  }

  /**
   * Without wrap-around the reading splits back into its seconds and
   * nanoseconds.
   */
  lemma NanosRoundTrip(sec: int, nsec: int)
    requires 0 <= sec && 0 <= nsec < NanosPerSecond
    requires sec * NanosPerSecond + nsec < Two64
    ensures NanosMonotonic(sec, nsec) == sec * NanosPerSecond + nsec
    ensures NanosMonotonic(sec, nsec) / NanosPerSecond == sec
    ensures NanosMonotonic(sec, nsec) % NanosPerSecond == nsec
  {
  }

  /** Bounds of a signed 64-bit integer. */
  const Two63: int := 0x8000_0000_0000_0000

  /**
   * static_cast<uint64_t> of a signed 64-bit value: non-negative values are
   * kept, negative ones wrap around by 2^64.
   */
  function ToUint64(x: int): (u: int)
    requires -Two63 <= x < Two63
    ensures 0 <= u < Two64
    ensures 0 <= x ==> u == x
    ensures x < 0 ==> u == x + Two64
  {
    x % Two64
  }

  /** Reading the unsigned value back as signed gives the original value. */
  lemma Uint64RoundTrip(x: int)
    requires -Two63 <= x < Two63
    ensures (if ToUint64(x) < Two63 then ToUint64(x) else ToUint64(x) - Two64) == x
  {
  }
}
