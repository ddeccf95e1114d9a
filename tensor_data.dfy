/**
 * Typed access to a tensor's data: the number of elements in one batch entry
 * (the product of every dimension after the first) and the element offset of
 * batch entry `batchIndex`, given only when the tensor's type tag matches the
 * element type asked for. A pointer is modelled as an element offset from
 * the start of the tensor's storage; nullptr is None.
 */
module TensorAccess {
  import opened Common

  /** The tensor fields TensorData reads. `base` is the offset of its storage. */
  datatype Tensor = Tensor(tensorType: TensorType, dims: seq<int>, base: int)

  /** The element types with a TensorData specialisation. */
  predicate Specialised(t: TensorType)
  {
    t in {Float32, Int32, Int64, Int8, UInt8}
  }

  /** Product of a sequence of dimensions; 1 for none. */
  function Product(s: seq<int>): int
  {
    if s == [] then 1 else Product(s[..|s| - 1]) * s[|s| - 1]
  }

  /** The product loop: nelems starts at 1 and multiplies in dims[1..]. */
  method ElementCount(dims: seq<int>) returns (nelems: int)
    ensures |dims| >= 1 ==> nelems == Product(dims[1..])
    ensures |dims| <= 1 ==> nelems == 1
  {
    nelems := 1;
    var i := 1;
    while i < |dims|
      invariant 1 <= i <= if |dims| >= 1 then |dims| else 1
      invariant |dims| >= 1 ==> nelems == Product(dims[1..i])
      invariant |dims| == 0 ==> nelems == 1
    {
      assert dims[1..i + 1][..i - 1] == dims[1..i];
      nelems := nelems * dims[i];
      i := i + 1;
    }
    if |dims| >= 1 {
      assert dims[1..i] == dims[1..];
    }
  }

  /** Elements per batch entry of an NHWC tensor: height * width * channels. */
  lemma NhwcElementCount(n: int, h: int, w: int, c: int)
    ensures Product([n, h, w, c][1..]) == h * w * c
  {
    var s := [n, h, w, c][1..];
    assert s == [h, w, c] && s[..2] == [h, w] && [h, w][..1] == [h] && [h][..0] == [];
    assert Product([h]) == h;
    assert Product([h, w]) == h * w;
  }

  /**
   * TensorData<T>: the offset of batch entry `batchIndex` when the tensor
   * holds elements of type `want`, otherwise None (after an error message).
   */
  method TensorData(want: TensorType, tensor: Tensor, batchIndex: int) returns (p: Option<int>)
    requires Specialised(want)
    ensures p.Some? <==> tensor.tensorType == want
    ensures p.Some? && |tensor.dims| >= 1 ==> p.value == tensor.base + Product(tensor.dims[1..]) * batchIndex
    ensures p.Some? && |tensor.dims| <= 1 ==> p.value == tensor.base + batchIndex
    ensures p.Some? && batchIndex == 0 ==> p.value == tensor.base
  {
    var nelems := ElementCount(tensor.dims);
    if tensor.tensorType == want {
      return Some(tensor.base + nelems * batchIndex);
    }
    return None;
  }
}
