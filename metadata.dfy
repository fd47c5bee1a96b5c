/** The volume metadata document DVID serves and accepts, already parsed from
    JSON, and what both generations of the client derive from it: the shape with
    the channel axis prepended, the axis keys and the element type. */
module Schema {
  import opened Wrappers
  import opened Text
  import opened NdArrays
  import opened Errors

  /** One entry of "Axes". */
  datatype AxisFields = AxisFields(axisLabel: string, resolution: real, units: string, size: int)

  /** One entry of "Values": one channel. */
  datatype ChannelFields = ChannelFields(dataType: string, channelLabel: string)

  datatype Metadata = Metadata(axes: seq<AxisFields>, values: seq<ChannelFields>)

  /** `(len(Values),)` followed by every axis Size, in order. */
  function ShapeOf(md: Metadata): seq<int>
  {
    [|md.values|] + AxisSizes(md.axes)
  }

  function AxisSizes(axes: seq<AxisFields>): (sizes: seq<int>)
    ensures |sizes| == |axes|
  {
    if |axes| == 0 then [] else AxisSizes(axes[..|axes| - 1]) + [axes[|axes| - 1].size]
  }

  /** The lower-cased axis labels, concatenated in order. */
  function LabelKeys(axes: seq<AxisFields>): string
  {
    if |axes| == 0 then "" else LabelKeys(axes[..|axes| - 1]) + Lower(axes[|axes| - 1].axisLabel)
  }

  /** `'c'` followed by the lower-cased axis labels. */
  function AxisKeysOf(md: Metadata): string
  {
    "c" + LabelKeys(md.axes)
  }

  /** `numpy.dtype(DataType)` of every channel; `None` if one name is unknown. */
  function ChannelDTypes(values: seq<ChannelFields>): (r: Option<seq<DType>>)
    ensures r.Some? ==> |r.value| == |values|
  {
    if |values| == 0 then Some([])
    else match (ChannelDTypes(values[..|values| - 1]), ParseDType(values[|values| - 1].dataType))
      case (Some(ds), Some(d)) => Some(ds + [d])
      case _ => None
  }

  predicate Uniform(ds: seq<DType>)
  {
    forall k :: 0 <= k < |ds| ==> ds[k] == ds[0]
  }

  /** The volume's element type: the first channel's, provided every channel
      names a known type and all channels agree. */
  function DTypeOf(md: Metadata): Result<DType, Error>
  {
    match ChannelDTypes(md.values)
    case None => Failure(UnknownDType)
    case Some(ds) =>
      if !Uniform(ds) then Failure(HeterogeneousChannels)
      else if |ds| == 0 then Failure(EmptyVector)
      else Success(ds[0])
  }

  /** One more channel extends the parsed prefix by its type, or fails it. */
  lemma ChannelDTypesStep(values: seq<ChannelFields>, i: nat)
    requires i < |values| && ChannelDTypes(values[..i]).Some?
    ensures ParseDType(values[i].dataType).None? ==> ChannelDTypes(values[..i + 1]).None?
    ensures ParseDType(values[i].dataType).Some? ==>
              ChannelDTypes(values[..i + 1])
                == Some(ChannelDTypes(values[..i]).value + [ParseDType(values[i].dataType).value])
  {
    var prefix := values[..i + 1];
    assert prefix[..i] == values[..i] && prefix[i] == values[i];
  }

  /** A prefix with an unknown type name makes the whole list unknown. */
  lemma {:induction false} ChannelDTypesUnknownPrefix(values: seq<ChannelFields>, j: nat)
    requires j <= |values| && ChannelDTypes(values[..j]).None?
    ensures ChannelDTypes(values).None?
    decreases |values|
  {
    if j < |values| {
      var init := values[..|values| - 1];
      assert init[..j] == values[..j];
      ChannelDTypesUnknownPrefix(init, j);
    } else {
      assert values[..j] == values;
    }
  }

  /** The channel loop of both metadata constructors: `numpy.dtype` of every
      DataType in order, then the homogeneity assertion, then `dtypes[0]`. */
  method ParseChannelDTypes(md: Metadata) returns (r: Result<DType, Error>)
    ensures r == DTypeOf(md)
  {
    var dtypes: seq<DType> := [];
    var i := 0;
    while i < |md.values|
      invariant 0 <= i <= |md.values|
      invariant ChannelDTypes(md.values[..i]) == Some(dtypes)
    {
      ChannelDTypesStep(md.values, i);
      var d := ParseDType(md.values[i].dataType);
      if d.None? {
        ChannelDTypesUnknownPrefix(md.values, i + 1);
        return Failure(UnknownDType);
      }
      dtypes := dtypes + [d.value];
      i := i + 1;
    }
    assert md.values[..i] == md.values;
    if !Uniform(dtypes) {
      return Failure(HeterogeneousChannels);
    }
    if |dtypes| == 0 {
      return Failure(EmptyVector);
    }
    r := Success(dtypes[0]);
  }

  /** The axis loop of both metadata constructors: the channel count, then
      each Size; `'c'`, then each lower-cased Label. */
  method ParseAxes(md: Metadata) returns (shape: seq<int>, axiskeys: string)
    ensures shape == ShapeOf(md) && axiskeys == AxisKeysOf(md)
  {
    shape := [|md.values|];
    axiskeys := "c";
    var j := 0;
    while j < |md.axes|
      invariant 0 <= j <= |md.axes|
      invariant shape == [|md.values|] + AxisSizes(md.axes[..j])
      invariant axiskeys == "c" + LabelKeys(md.axes[..j])
    {
      AxesStep(md.axes, j);
      axiskeys := axiskeys + Lower(md.axes[j].axisLabel);
      shape := shape + [md.axes[j].size];
      j := j + 1;
    }
    assert md.axes[..j] == md.axes;
  }

  /** One more axis entry appends its size and its lower-cased label. */
  lemma AxesStep(axes: seq<AxisFields>, j: nat)
    requires j < |axes|
    ensures AxisSizes(axes[..j + 1]) == AxisSizes(axes[..j]) + [axes[j].size]
    ensures LabelKeys(axes[..j + 1]) == LabelKeys(axes[..j]) + Lower(axes[j].axisLabel)
  {
    var prefix := axes[..j + 1];
    assert prefix[..j] == axes[..j] && prefix[j] == axes[j];
  }

  /** Keys made of one character per axis give one key per shape entry. */
  lemma {:induction false} AxisKeysLength(md: Metadata)
    requires forall k :: 0 <= k < |md.axes| ==> |md.axes[k].axisLabel| == 1
    ensures |AxisKeysOf(md)| == |ShapeOf(md)|
  {
    LabelKeysLength(md.axes);
  }

  lemma {:induction false} LabelKeysLength(axes: seq<AxisFields>)
    requires forall k :: 0 <= k < |axes| ==> |axes[k].axisLabel| == 1
    ensures |LabelKeys(axes)| == |axes|
    decreases |axes|
  {
    if |axes| > 0 {
      LabelKeysLength(axes[..|axes| - 1]);
    }
  }

  /** The axis entries `create_default_metadata` emits: one per non-channel
      position that both the keys and the shape have. */
  function DefaultAxes(shape: seq<int>, axiskeys: string, resolution: real, units: string): (axes: seq<AxisFields>)
    ensures |axes| == if |shape| <= 1 || |axiskeys| <= 1 then 0
                      else (if |shape| < |axiskeys| then |shape| else |axiskeys|) - 1
  {
    if |shape| <= 1 || |axiskeys| <= 1 then []
    else [AxisFields(Upper([axiskeys[1]]), resolution, units, shape[1])]
         + DefaultAxes(shape[1..], axiskeys[1..], resolution, units)
  }

  /** `shape[0]` identical channel entries (none if it is not positive). */
  function DefaultValues(channels: int, dtype: DType): (values: seq<ChannelFields>)
    ensures |values| == if channels < 0 then 0 else channels
  {
    if channels <= 0 then [] else DefaultValues(channels - 1, dtype) + [ChannelFields(DTypeName(dtype), "")]
  }

  /** The document `create_default_metadata` builds. */
  function DefaultMetadata(shape: seq<int>, dtype: DType, axiskeys: string, resolution: real, units: string): Metadata
    requires |shape| >= 1
  {
    Metadata(DefaultAxes(shape, axiskeys, resolution, units), DefaultValues(shape[0], dtype))
  }

  /** Entry k-1 of the default axes describes axis k. */
  lemma {:induction false} DefaultAxesAt(shape: seq<int>, axiskeys: string, resolution: real, units: string, k: nat)
    requires 1 <= k < |shape| && k < |axiskeys|
    ensures DefaultAxes(shape, axiskeys, resolution, units)[k - 1]
         == AxisFields(Upper([axiskeys[k]]), resolution, units, shape[k])
    decreases k
  {
    if k > 1 {
      DefaultAxesAt(shape[1..], axiskeys[1..], resolution, units, k - 1);
    }
  }

  /** The loops of both `create_default_metadata`s: one Axes entry per pair of
      `zip(axiskeys, shape)[1:]`, then `shape[0]` Values entries. */
  method BuildDefaultMetadata(shape: seq<int>, dtype: DType, axiskeys: string, resolution: real, units: string)
    returns (md: Metadata)
    requires |shape| >= 1 && |axiskeys| >= 1
    ensures md == DefaultMetadata(shape, dtype, axiskeys, resolution, units)
  {
    var n := if |shape| < |axiskeys| then |shape| else |axiskeys|;
    var axes: seq<AxisFields> := [];
    var k := 1;
    while k < n
      invariant 1 <= k <= n
      invariant |axes| == k - 1
      invariant forall j :: 0 <= j < k - 1 ==> axes[j] == DefaultAxes(shape, axiskeys, resolution, units)[j]
    {
      DefaultAxesAt(shape, axiskeys, resolution, units, k);
      axes := axes + [AxisFields(Upper([axiskeys[k]]), resolution, units, shape[k])];
      k := k + 1;
    }
    var values: seq<ChannelFields> := [];
    var c := 0;
    while c < shape[0]
      invariant 0 <= c && (c <= shape[0] || c == 0)
      invariant values == DefaultValues(c, dtype)
    {
      values := values + [ChannelFields(DTypeName(dtype), "")];
      c := c + 1;
    }
    md := Metadata(axes, values);
  }

  lemma {:induction false} AxisSizesOfDefault(shape: seq<int>, axiskeys: string, resolution: real, units: string)
    requires |axiskeys| == |shape| >= 1
    ensures AxisSizes(DefaultAxes(shape, axiskeys, resolution, units)) == shape[1..]
    decreases |shape|
  {
    if |shape| > 1 {
      var axes := DefaultAxes(shape, axiskeys, resolution, units);
      var tail := DefaultAxes(shape[1..], axiskeys[1..], resolution, units);
      AxisSizesOfDefault(shape[1..], axiskeys[1..], resolution, units);
      AxisSizesCons(axes[0], tail);
    }
  }

  lemma {:induction false} AxisSizesCons(a: AxisFields, axes: seq<AxisFields>)
    ensures AxisSizes([a] + axes) == [a.size] + AxisSizes(axes)
    decreases |axes|
  {
    if |axes| > 0 {
      assert ([a] + axes)[..|axes|] == [a] + axes[..|axes| - 1];
      AxisSizesCons(a, axes[..|axes| - 1]);
    }
  }

  lemma {:induction false} LabelKeysCons(a: AxisFields, axes: seq<AxisFields>)
    ensures LabelKeys([a] + axes) == Lower(a.axisLabel) + LabelKeys(axes)
    decreases |axes|
  {
    if |axes| > 0 {
      assert ([a] + axes)[..|axes|] == [a] + axes[..|axes| - 1];
      LabelKeysCons(a, axes[..|axes| - 1]);
    }
  }

  lemma {:induction false} LabelKeysOfDefault(shape: seq<int>, axiskeys: string, resolution: real, units: string)
    requires |axiskeys| == |shape| >= 1
    ensures LabelKeys(DefaultAxes(shape, axiskeys, resolution, units)) == Lower(axiskeys[1..])
    decreases |shape|
  {
    if |shape| > 1 {
      var axes := DefaultAxes(shape, axiskeys, resolution, units);
      var tail := DefaultAxes(shape[1..], axiskeys[1..], resolution, units);
      LabelKeysOfDefault(shape[1..], axiskeys[1..], resolution, units);
      LabelKeysCons(axes[0], tail);
      LowerOfUpper([axiskeys[1]]);
      assert Lower(axiskeys[1..]) == Lower([axiskeys[1]]) + Lower(axiskeys[2..]);
    }
  }

  lemma {:induction false} ChannelDTypesOfDefault(channels: int, dtype: DType)
    ensures var r := ChannelDTypes(DefaultValues(channels, dtype));
      r.Some? && AllAre(r.value, dtype)
    decreases if channels < 0 then 0 else channels
  {
    if channels > 0 {
      var prev := DefaultValues(channels - 1, dtype);
      ChannelDTypesOfDefault(channels - 1, dtype);
      ChannelDTypesSnoc(prev, dtype);
      AllAreSnoc(ChannelDTypes(prev).value, dtype);
    }
  }

  predicate AllAre(ds: seq<DType>, d: DType)
  {
    forall k :: 0 <= k < |ds| ==> ds[k] == d
  }

  lemma AllAreSnoc(ds: seq<DType>, d: DType)
    requires AllAre(ds, d)
    ensures AllAre(ds + [d], d)
  {
  }

  /** One more default channel adds its dtype to the parsed list. */
  lemma ChannelDTypesSnoc(prev: seq<ChannelFields>, dtype: DType)
    requires ChannelDTypes(prev).Some?
    ensures ChannelDTypes(prev + [ChannelFields(DTypeName(dtype), "")]) == Some(ChannelDTypes(prev).value + [dtype])
  {
    var values := prev + [ChannelFields(DTypeName(dtype), "")];
    assert values[..|values| - 1] == prev;
    ParseDTypeName(dtype);
  }

  /** Reading back the default document for a shape with at least one channel
      and one key per axis gives the shape, the lower-cased keys and the dtype. */
  lemma DefaultMetadataRoundTrip(shape: seq<int>, dtype: DType, axiskeys: string, resolution: real, units: string)
    requires |axiskeys| == |shape| >= 1 && axiskeys[0] == 'c' && shape[0] >= 1
    ensures ShapeOf(DefaultMetadata(shape, dtype, axiskeys, resolution, units)) == shape
    ensures AxisKeysOf(DefaultMetadata(shape, dtype, axiskeys, resolution, units)) == Lower(axiskeys)
    ensures DTypeOf(DefaultMetadata(shape, dtype, axiskeys, resolution, units)) == Success(dtype)
  {
    DefaultShapeRoundTrip(shape, dtype, axiskeys, resolution, units);
    DefaultKeysRoundTrip(shape, dtype, axiskeys, resolution, units);
    DefaultDTypeRoundTrip(shape, dtype, axiskeys, resolution, units);
  }

  lemma DefaultDTypeRoundTrip(shape: seq<int>, dtype: DType, axiskeys: string, resolution: real, units: string)
    requires |shape| >= 1 && shape[0] >= 1
    ensures DTypeOf(DefaultMetadata(shape, dtype, axiskeys, resolution, units)) == Success(dtype)
  {
    ChannelDTypesOfDefault(shape[0], dtype);
    var ds := ChannelDTypes(DefaultValues(shape[0], dtype)).value;
    assert |ds| == shape[0] && ds[0] == dtype;
    assert Uniform(ds);
  }

  lemma DefaultShapeRoundTrip(shape: seq<int>, dtype: DType, axiskeys: string, resolution: real, units: string)
    requires |axiskeys| == |shape| >= 1 && shape[0] >= 1
    ensures ShapeOf(DefaultMetadata(shape, dtype, axiskeys, resolution, units)) == shape
  {
    AxisSizesOfDefault(shape, axiskeys, resolution, units);
    assert [shape[0]] + shape[1..] == shape;
  }

  lemma DefaultKeysRoundTrip(shape: seq<int>, dtype: DType, axiskeys: string, resolution: real, units: string)
    requires |axiskeys| == |shape| >= 1 && axiskeys[0] == 'c'
    ensures AxisKeysOf(DefaultMetadata(shape, dtype, axiskeys, resolution, units)) == Lower(axiskeys)
  {
    LabelKeysOfDefault(shape, axiskeys, resolution, units);
    assert Lower(axiskeys) == "c" + Lower(axiskeys[1..]);
  }

  /** The default document for a volume without channels has no dtype. */
  lemma DefaultMetadataNoChannels(shape: seq<int>, dtype: DType, axiskeys: string, resolution: real, units: string)
    requires |shape| >= 1 && shape[0] <= 0
    ensures DTypeOf(DefaultMetadata(shape, dtype, axiskeys, resolution, units)) == Failure(EmptyVector)
  {
  }

  /** DVID's type name for an element type and channel count. */
  function DvidTypename(dtype: DType, channels: int): (r: Result<string, Error>)
    ensures r.Success? <==> (dtype, channels) in {(UInt8, 1), (UInt32, 1), (UInt64, 1), (UInt8, 4)}
    ensures r.Failure? ==> r.error == NoTypename(dtype, channels)
  {
    if dtype == UInt8 && channels == 1 then Success("grayscale8")
    else if dtype == UInt32 && channels == 1 then Success("labels32")
    else if dtype == UInt64 && channels == 1 then Success("labels64")
    else if dtype == UInt8 && channels == 4 then Success("rgba8")
    else Failure(NoTypename(dtype, channels))
  }
  /** `determine_dvid_typename` of any of the metadata records: the table
      entry for the element type and the channel count `shape[0]`; a record
      without a shape has no channel count. */
  function ShapeTypename(dtype: DType, shape: seq<int>): (r: Result<string, Error>)
    ensures r.Success? <==> |shape| >= 1 && (dtype, shape[0]) in {(UInt8, 1), (UInt32, 1), (UInt64, 1), (UInt8, 4)}
    ensures |shape| == 0 ==> r == Failure(EmptyVector)
    ensures |shape| >= 1 && r.Failure? ==> r.error == NoTypename(dtype, shape[0])
  {
    if |shape| == 0 then Failure(EmptyVector) else DvidTypename(dtype, shape[0])
  }


  /** A type name determines the element type and the channel count, so a
      server can check a creation request's name against its document. */
  lemma DvidTypenameInjective(d1: DType, c1: int, d2: DType, c2: int)
    requires DvidTypename(d1, c1).Success? && DvidTypename(d2, c2).Success?
    requires DvidTypename(d1, c1).value == DvidTypename(d2, c2).value
    ensures d1 == d2 && c1 == c2
  {
  }

  /** Axis keys chosen for an h5 dataset without metadata: `'cxyzt'[:n]`. */
  function DefaultAxisKeys(n: nat): (keys: string)
    ensures |keys| == if n < 5 then n else 5
    ensures n >= 1 ==> keys[0] == 'c'
    ensures NoUpper(keys)
  {
    if n < 5 then "cxyzt"[..n] else "cxyzt"
  }
}
