/** N-dimensional arrays as the codec sees them: a shape, an element type and
    the flat bytes of the elements in one of numpy's two contiguous layouts.
    Element values are opaque byte groups of the element type's size. */
module NdArrays {
  import opened Wrappers

  newtype byte = b: int | 0 <= b < 256

  /** numpy's fixed-size numeric dtypes, by their canonical names. */
  datatype DType =
    | Bool | Int8 | Int16 | Int32 | Int64 | UInt8 | UInt16 | UInt32 | UInt64
    | Float16 | Float32 | Float64 | Complex64 | Complex128

  /** `dtype.type().nbytes`. */
  function ItemSize(d: DType): (n: nat)
    ensures 1 <= n <= 16
  {
    match d
    case Bool => 1
    case Int8 => 1
    case Int16 => 2
    case Int32 => 4
    case Int64 => 8
    case UInt8 => 1
    case UInt16 => 2
    case UInt32 => 4
    case UInt64 => 8
    case Float16 => 2
    case Float32 => 4
    case Float64 => 8
    case Complex64 => 8
    case Complex128 => 16
  }

  /** `dtype.name`. */
  function DTypeName(d: DType): string
  {
    match d
    case Bool => "bool"
    case Int8 => "int8"
    case Int16 => "int16"
    case Int32 => "int32"
    case Int64 => "int64"
    case UInt8 => "uint8"
    case UInt16 => "uint16"
    case UInt32 => "uint32"
    case UInt64 => "uint64"
    case Float16 => "float16"
    case Float32 => "float32"
    case Float64 => "float64"
    case Complex64 => "complex64"
    case Complex128 => "complex128"
  }

  /** `numpy.dtype(name)` on canonical names; `None` stands for the TypeError
      of a name numpy does not know. */
  function ParseDType(name: string): (r: Option<DType>)
    ensures r.Some? ==> DTypeName(r.value) == name
  {
    if name == "bool" then Some(Bool)
    else if name == "int8" then Some(Int8)
    else if name == "int16" then Some(Int16)
    else if name == "int32" then Some(Int32)
    else if name == "int64" then Some(Int64)
    else if name == "uint8" then Some(UInt8)
    else if name == "uint16" then Some(UInt16)
    else if name == "uint32" then Some(UInt32)
    else if name == "uint64" then Some(UInt64)
    else if name == "float16" then Some(Float16)
    else if name == "float32" then Some(Float32)
    else if name == "float64" then Some(Float64)
    else if name == "complex64" then Some(Complex64)
    else if name == "complex128" then Some(Complex128)
    else None
  }

  lemma ParseDTypeName(d: DType)
    ensures ParseDType(DTypeName(d)) == Some(d)
  {
  }

  /** `numpy.prod(shape)`: the number of elements of an array of that shape. */
  function Prod(shape: seq<nat>): nat
  {
    if |shape| == 0 then 1 else shape[0] * Prod(shape[1..])
  }

  predicate InBounds(shape: seq<nat>, idx: seq<nat>)
  {
    |idx| == |shape| && forall k :: 0 <= k < |idx| ==> idx[k] < shape[k]
  }

  // ---- arithmetic helpers -------------------------------------------------

  lemma MulMono(a: nat, b: nat, c: nat)
    requires a <= b
    ensures a * c <= b * c
  {
  }

  /** Slot `o` of width `w` ends inside `n` slots. */
  lemma SlotBound(o: nat, b: nat, w: nat, n: nat)
    requires o < n && b < w
    ensures 0 <= o * w && o * w + b < n * w
  {
    MulMono(0, o, w);
    MulMono(o + 1, n, w);
    assert (o + 1) * w == o * w + w;
  }

  lemma DivModSlot(o: nat, b: nat, w: nat)
    requires b < w
    ensures (o * w + b) / w == o && (o * w + b) % w == b
  {
    var j := o * w + b;
    var q, r := j / w, j % w;
    assert j == q * w + r;
    if q > o {
      MulMono(o + 1, q, w);
      assert false;
    } else if q < o {
      MulMono(q + 1, o, w);
      assert false;
    }
  }

  lemma DivBound(j: nat, w: nat, n: nat)
    requires j < n * w
    ensures w > 0 && j / w < n && j / w * w + j % w == j
  {
    var q := j / w;
    if q >= n {
      MulMono(n, q, w);
      assert false;
    }
  }

  // ---- Fortran (first index fastest) linearisation ------------------------

  /** Linear position of a multi-index in Fortran order. */
  function FOffset(shape: seq<nat>, idx: seq<nat>): (o: nat)
    requires InBounds(shape, idx)
    ensures o < Prod(shape)
  {
    if |shape| == 0 then 0
    else
      var rest := FOffset(shape[1..], idx[1..]);
      SlotBound(rest, idx[0], shape[0], Prod(shape[1..]));
      idx[0] + shape[0] * rest
  }

  /** The multi-index at a Fortran-order position; the inverse of FOffset. */
  function FIndex(shape: seq<nat>, p: nat): (idx: seq<nat>)
    requires p < Prod(shape)
    ensures InBounds(shape, idx) && FOffset(shape, idx) == p
  {
    if |shape| == 0 then []
    else
      var w, n := shape[0], Prod(shape[1..]);
      assert p < n * w;
      DivBound(p, w, n);
      var rest := FIndex(shape[1..], p / w);
      var idx := [p % w] + rest;
      assert idx[1..] == rest;
      assert FOffset(shape, idx) == p % w + w * (p / w);
      idx
  }

  lemma {:induction false} FIndexOfFOffset(shape: seq<nat>, idx: seq<nat>)
    requires InBounds(shape, idx)
    ensures FIndex(shape, FOffset(shape, idx)) == idx
  {
    if |shape| > 0 {
      var rest := FOffset(shape[1..], idx[1..]);
      DivModSlot(rest, idx[0], shape[0]);
      assert idx[0] + shape[0] * rest == rest * shape[0] + idx[0];
      FIndexOfFOffset(shape[1..], idx[1..]);
      assert [idx[0]] + idx[1..] == idx;
    }
  }

  // ---- C (last index fastest) linearisation -------------------------------

  function Reverse<T>(s: seq<T>): (r: seq<T>)
    ensures |r| == |s| && forall k :: 0 <= k < |s| ==> r[k] == s[|s| - 1 - k]
  {
    seq(|s|, k requires 0 <= k < |s| => s[|s| - 1 - k])
  }

  lemma {:induction false} ProdSnoc(s: seq<nat>, x: nat)
    ensures Prod(s + [x]) == Prod(s) * x
  {
    if |s| > 0 {
      assert (s + [x])[1..] == s[1..] + [x];
      ProdSnoc(s[1..], x);
    }
  }

  lemma {:induction false} ProdReverse(s: seq<nat>)
    ensures Prod(Reverse(s)) == Prod(s)
  {
    if |s| > 0 {
      var n := |s|;
      assert Reverse(s)[1..] == Reverse(s[..n - 1]);
      ProdReverse(s[..n - 1]);
      ProdSnoc(s[..n - 1], s[n - 1]);
      assert s[..n - 1] + [s[n - 1]] == s;
    }
  }

  /** Linear position of a multi-index in C order. */
  function COffset(shape: seq<nat>, idx: seq<nat>): (o: nat)
    requires InBounds(shape, idx)
    ensures o < Prod(shape)
  {
    ProdReverse(shape);
    FOffset(Reverse(shape), Reverse(idx))
  }

  // ---- arrays -------------------------------------------------------------

  /** Memory layout of a contiguous numpy array. */
  datatype Order = C | F

  datatype NdArray = NdArray(shape: seq<nat>, dtype: DType, order: Order, data: seq<byte>)

  /** The array's buffer holds exactly one element per position. */
  predicate Valid(a: NdArray)
  {
    |a.data| == Prod(a.shape) * ItemSize(a.dtype)
  }

  function Offset(a: NdArray, idx: seq<nat>): (o: nat)
    requires InBounds(a.shape, idx)
    ensures o < Prod(a.shape)
  {
    if a.order == F then FOffset(a.shape, idx) else COffset(a.shape, idx)
  }

  /** `a[idx]`: the bytes of the element at a multi-index. */
  function Element(a: NdArray, idx: seq<nat>): (e: seq<byte>)
    requires Valid(a) && InBounds(a.shape, idx)
    ensures |e| == ItemSize(a.dtype)
  {
    var o, w := Offset(a, idx), ItemSize(a.dtype);
    SlotBound(o, w - 1, w, Prod(a.shape));
    a.data[o * w .. o * w + w]
  }

  /** Where byte `b` of the element at Fortran position `q` sits in `a.data`. */
  function SlotSource(a: NdArray, q: nat, b: nat): (k: nat)
    requires Valid(a) && q < Prod(a.shape) && b < ItemSize(a.dtype)
    ensures k < |a.data|
  {
    var w, o := ItemSize(a.dtype), Offset(a, FIndex(a.shape, q));
    SlotBound(o, b, w, Prod(a.shape));
    o * w + b
  }

  /** Where byte `j` of the Fortran-order copy of `a` sits in `a.data`: the
      element at Fortran position `j / w`, byte `j % w` of it. */
  function FortranSource(a: NdArray, j: nat): (k: nat)
    requires Valid(a) && j < |a.data|
    ensures k < |a.data|
  {
    var w := ItemSize(a.dtype);
    DivBound(j, w, Prod(a.shape));
    SlotSource(a, j / w, j % w)
  }

  /** Byte `j` of the Fortran-order copy of `a`. */
  function FortranByte(a: NdArray, j: nat): byte
    requires Valid(a) && j < |a.data|
  {
    a.data[FortranSource(a, j)]
  }

  /** The bytes `numpy.getbuffer` yields after the encoder has made `a`
      F-contiguous: the buffer itself for an F array, a Fortran-order copy
      of the elements otherwise. */
  function FortranBytes(a: NdArray): (bytes: seq<byte>)
    requires Valid(a)
    ensures |bytes| == |a.data|
  {
    if a.order == F then a.data
    else seq(|a.data|, j requires 0 <= j < |a.data| => FortranByte(a, j))
  }

  /** The array the decoder builds over a Fortran-order buffer. */
  function FromFortran(shape: seq<nat>, dtype: DType, bytes: seq<byte>): (a: NdArray)
    requires |bytes| == Prod(shape) * ItemSize(dtype)
    ensures Valid(a) && a.order == F && a.shape == shape && a.dtype == dtype && a.data == bytes
  {
    NdArray(shape, dtype, F, bytes)
  }

  /** The element at `idx` of the array built over a Fortran-order buffer is
      the `idx`-th item-sized slot of that buffer, counted in Fortran order. */
  lemma FromFortranElement(shape: seq<nat>, dtype: DType, bytes: seq<byte>, idx: seq<nat>)
    requires |bytes| == Prod(shape) * ItemSize(dtype) && InBounds(shape, idx)
    ensures (FOffset(shape, idx) + 1) * ItemSize(dtype) <= |bytes|
    ensures Element(FromFortran(shape, dtype, bytes), idx)
         == bytes[FOffset(shape, idx) * ItemSize(dtype) .. (FOffset(shape, idx) + 1) * ItemSize(dtype)]
  {
    var w, o := ItemSize(dtype), FOffset(shape, idx);
    SlotBound(o, w - 1, w, Prod(shape));
    assert (o + 1) * w == o * w + w;
  }

  lemma {:induction false} FortranByteAt(a: NdArray, idx: seq<nat>, b: nat)
    requires Valid(a) && InBounds(a.shape, idx) && b < ItemSize(a.dtype)
    ensures FOffset(a.shape, idx) * ItemSize(a.dtype) + b < |a.data|
    ensures FortranBytes(a)[FOffset(a.shape, idx) * ItemSize(a.dtype) + b] == Element(a, idx)[b]
  {
    var w, o := ItemSize(a.dtype), FOffset(a.shape, idx);
    SlotBound(o, b, w, Prod(a.shape));
    ElementByte(a, idx, b);
    if a.order == C {
      var j := o * w + b;
      assert FortranBytes(a)[j] == a.data[FortranSource(a, j)];
      FortranSourceOfSlot(a, o, b);
      FIndexOfFOffset(a.shape, idx);
      assert SlotSource(a, o, b) == Offset(a, idx) * w + b;
    }
  }

  /** Byte `b` of Fortran slot `o` comes from byte `b` of the element at the
      multi-index of that slot. */
  lemma FortranSourceOfSlot(a: NdArray, o: nat, b: nat)
    requires Valid(a) && o < Prod(a.shape) && b < ItemSize(a.dtype)
    ensures o * ItemSize(a.dtype) + b < |a.data|
    ensures FortranSource(a, o * ItemSize(a.dtype) + b) == SlotSource(a, o, b)
  {
    var w := ItemSize(a.dtype);
    SlotBound(o, b, w, Prod(a.shape));
    DivModSlot(o, b, w);
  }

  /** Re-laying an array out in Fortran order keeps every element in place:
      the element at each multi-index of the copy is the original's. */
  lemma {:induction false} FortranBytesElement(a: NdArray, idx: seq<nat>)
    requires Valid(a) && InBounds(a.shape, idx)
    ensures Element(FromFortran(a.shape, a.dtype, FortranBytes(a)), idx) == Element(a, idx)
  {
    var w, o := ItemSize(a.dtype), FOffset(a.shape, idx);
    var f := FromFortran(a.shape, a.dtype, FortranBytes(a));
    var e, orig := Element(f, idx), Element(a, idx);
    assert e == FortranBytes(a)[o * w .. o * w + w];
    forall b | 0 <= b < w ensures e[b] == orig[b] {
      FortranByteAt(a, idx, b);
    }
  }

  // ---- channel selection --------------------------------------------------

  /** The multi-index moved `lo` places along axis 0. */
  function ShiftAxis0(idx: seq<nat>, lo: nat): (r: seq<nat>)
    requires |idx| >= 1
    ensures |r| == |idx| && r[0] == idx[0] + lo && r[1..] == idx[1..]
  {
    idx[0 := idx[0] + lo]
  }

  /** Byte `j` of `a[lo:hi]` laid out in Fortran order. */
  function SlicedByte(a: NdArray, lo: nat, hi: nat, j: nat): byte
    requires Valid(a) && |a.shape| >= 1 && lo <= hi <= a.shape[0]
    requires j < Prod([hi - lo] + a.shape[1..]) * ItemSize(a.dtype)
  {
    var w, shape := ItemSize(a.dtype), [hi - lo] + a.shape[1..];
    DivBound(j, w, Prod(shape));
    var idx := ShiftAxis0(FIndex(shape, j / w), lo);
    SlotBound(Offset(a, idx), j % w, w, Prod(a.shape));
    a.data[Offset(a, idx) * w + j % w]
  }

  /** `a[lo:hi]`: the channels `lo..hi` of an array whose axis 0 is the channel axis. */
  function SliceChannels(a: NdArray, lo: nat, hi: nat): (r: NdArray)
    requires Valid(a) && |a.shape| >= 1 && lo <= hi <= a.shape[0]
    ensures Valid(r) && r.order == F && r.dtype == a.dtype
    ensures r.shape == [hi - lo] + a.shape[1..]
  {
    var shape := [hi - lo] + a.shape[1..];
    var n := Prod(shape) * ItemSize(a.dtype);
    NdArray(shape, a.dtype, F, seq(n, j requires 0 <= j < n => SlicedByte(a, lo, hi, j)))
  }

  /** Channel `c` of the selection is channel `lo + c` of the original, at every
      position of the other axes. */
  lemma {:induction false} SlicedByteAt(a: NdArray, lo: nat, hi: nat, idx: seq<nat>, b: nat)
    requires Valid(a) && |a.shape| >= 1 && lo <= hi <= a.shape[0]
    requires InBounds([hi - lo] + a.shape[1..], idx) && b < ItemSize(a.dtype)
    ensures InBounds(a.shape, ShiftAxis0(idx, lo))
    ensures FOffset([hi - lo] + a.shape[1..], idx) * ItemSize(a.dtype) + b
            < Prod([hi - lo] + a.shape[1..]) * ItemSize(a.dtype)
    ensures SlicedByte(a, lo, hi, FOffset([hi - lo] + a.shape[1..], idx) * ItemSize(a.dtype) + b)
            == a.data[Offset(a, ShiftAxis0(idx, lo)) * ItemSize(a.dtype) + b]
  {
    var shape, w := [hi - lo] + a.shape[1..], ItemSize(a.dtype);
    var o := FOffset(shape, idx);
    SlotBound(o, b, w, Prod(shape));
    DivModSlot(o, b, w);
    FIndexOfFOffset(shape, idx);
  }

  /** Channel `c` of the selection is channel `lo + c` of the original, at every
      position of the other axes. */
  lemma {:induction false} SliceChannelsElement(a: NdArray, lo: nat, hi: nat, idx: seq<nat>)
    requires Valid(a) && |a.shape| >= 1 && lo <= hi <= a.shape[0]
    requires InBounds([hi - lo] + a.shape[1..], idx)
    ensures InBounds(a.shape, ShiftAxis0(idx, lo))
    ensures Element(SliceChannels(a, lo, hi), idx) == Element(a, ShiftAxis0(idx, lo))
  {
    SlicedByteAt(a, lo, hi, idx, 0);
    var e := Element(SliceChannels(a, lo, hi), idx);
    var orig := Element(a, ShiftAxis0(idx, lo));
    forall b | 0 <= b < ItemSize(a.dtype) ensures e[b] == orig[b] {
      SliceChannelsByte(a, lo, hi, idx, b);
    }
  }

  lemma {:induction false} SliceChannelsByte(a: NdArray, lo: nat, hi: nat, idx: seq<nat>, b: nat)
    requires Valid(a) && |a.shape| >= 1 && lo <= hi <= a.shape[0]
    requires InBounds([hi - lo] + a.shape[1..], idx) && b < ItemSize(a.dtype)
    ensures InBounds(a.shape, ShiftAxis0(idx, lo))
    ensures Element(SliceChannels(a, lo, hi), idx)[b] == Element(a, ShiftAxis0(idx, lo))[b]
  {
    SliceChannelsAt(a, lo, hi, idx, b);
    SlicedByteAt(a, lo, hi, idx, b);
    ElementByte(a, ShiftAxis0(idx, lo), b);
  }

  /** Byte `b` of the selection's element at `idx` is the sliced byte at its
      Fortran-order position. */
  lemma {:induction false} SliceChannelsAt(a: NdArray, lo: nat, hi: nat, idx: seq<nat>, b: nat)
    requires Valid(a) && |a.shape| >= 1 && lo <= hi <= a.shape[0]
    requires InBounds([hi - lo] + a.shape[1..], idx) && b < ItemSize(a.dtype)
    ensures FOffset([hi - lo] + a.shape[1..], idx) * ItemSize(a.dtype) + b
            < Prod([hi - lo] + a.shape[1..]) * ItemSize(a.dtype)
    ensures Element(SliceChannels(a, lo, hi), idx)[b]
            == SlicedByte(a, lo, hi, FOffset([hi - lo] + a.shape[1..], idx) * ItemSize(a.dtype) + b)
  {
    var r := SliceChannels(a, lo, hi);
    ElementByte(r, idx, b);
    SliceChannelsData(a, lo, hi, Offset(r, idx) * ItemSize(a.dtype) + b);
  }

  lemma {:induction false} SliceChannelsData(a: NdArray, lo: nat, hi: nat, j: nat)
    requires Valid(a) && |a.shape| >= 1 && lo <= hi <= a.shape[0]
    requires j < Prod([hi - lo] + a.shape[1..]) * ItemSize(a.dtype)
    ensures j < |SliceChannels(a, lo, hi).data| && SliceChannels(a, lo, hi).data[j] == SlicedByte(a, lo, hi, j)
  {
  }

  lemma {:induction false} ElementByte(a: NdArray, idx: seq<nat>, b: nat)
    requires Valid(a) && InBounds(a.shape, idx) && b < ItemSize(a.dtype)
    ensures Offset(a, idx) * ItemSize(a.dtype) + b < |a.data|
    ensures Element(a, idx)[b] == a.data[Offset(a, idx) * ItemSize(a.dtype) + b]
  {
    SlotBound(Offset(a, idx), b, ItemSize(a.dtype), Prod(a.shape));
  }
}
