/** dvidclient's `VolumeInfo`: an immutable record of a volume's shape (with
    the channel axis first), element type, axis keys and raw metadata. */
module VolumeMetainfo {
  import opened Wrappers
  import opened Text
  import opened NdArrays
  import opened Errors
  import opened Schema

  /** The four-argument form `VolumeInfo(shape, dtype, axiskeys, metadata)`
      keeps its fields as given; the dtype is already an element type here. */
  datatype VolumeInfo = VolumeInfo(shape: seq<int>, dtype: DType, axiskeys: string, metadata: Metadata)

  /** The record `VolumeInfo(metadata)` derives from a parsed document. */
  function InfoOf(md: Metadata): (r: Result<VolumeInfo, Error>)
    ensures r.Success? <==> DTypeOf(md).Success?
  {
    match DTypeOf(md)
    case Success(d) => Success(VolumeInfo(ShapeOf(md), d, AxisKeysOf(md), md))
    case Failure(e) => Failure(e)
  }

  /** `VolumeInfo(metadata)`: collect the channel dtypes, check they agree,
      then read the axes. */
  method FromMetadata(md: Metadata) returns (r: Result<VolumeInfo, Error>)
    ensures r == InfoOf(md)
  {
    var dtype := ParseChannelDTypes(md);
    var shape, axiskeys := ParseAxes(md);
    if dtype.Failure? {
      return Failure(dtype.error);
    }
    r := Success(VolumeInfo(shape, dtype.value, axiskeys, md));
  }

  /** `create_default_metadata`: `axiskeys[0]` must exist and be `'c'`, and
      `shape[0]` must exist. */
  method CreateDefaultMetadata(shape: seq<int>, dtype: DType, axiskeys: string, resolution: real, units: string)
    returns (r: Result<Metadata, Error>)
    ensures |axiskeys| == 0 ==> r == Failure(EmptyVector)
    ensures |axiskeys| >= 1 && axiskeys[0] != 'c' ==> r == Failure(MissingChannelAxis)
    ensures |axiskeys| >= 1 && axiskeys[0] == 'c' && |shape| == 0 ==> r == Failure(EmptyVector)
    ensures |axiskeys| >= 1 && axiskeys[0] == 'c' && |shape| >= 1
            ==> r == Success(DefaultMetadata(shape, dtype, axiskeys, resolution, units))
  {
    if |axiskeys| == 0 {
      return Failure(EmptyVector);
    }
    if axiskeys[0] != 'c' {
      return Failure(MissingChannelAxis);
    }
    if |shape| == 0 {
      return Failure(EmptyVector);
    }
    var md := BuildDefaultMetadata(shape, dtype, axiskeys, resolution, units);
    r := Success(md);
  }

  /** Parsing the default document gives back the shape, the (lower-case)
      keys and the dtype it was built from. */
  lemma DefaultInfoRoundTrip(shape: seq<int>, dtype: DType, axiskeys: string, resolution: real, units: string)
    requires |axiskeys| == |shape| >= 1 && axiskeys[0] == 'c' && shape[0] >= 1 && NoUpper(axiskeys)
    ensures var md := DefaultMetadata(shape, dtype, axiskeys, resolution, units);
      InfoOf(md) == Success(VolumeInfo(shape, dtype, axiskeys, md))
  {
    DefaultMetadataRoundTrip(shape, dtype, axiskeys, resolution, units);
    LowerOfLowercase(axiskeys);
  }

  /** `determine_dvid_typename`: look up (dtype, channel count). */
  function DetermineDvidTypename(info: VolumeInfo): Result<string, Error>
  {
    ShapeTypename(info.dtype, info.shape)
  }

  /** The default branch of `create_volumeinfo_from_h5_dataset`: keys
      `'cxyzt'[:len(shape)]`, resolution 1.0, no units. */
  method CreateFromH5Default(shape: seq<nat>, dtype: DType) returns (r: Result<VolumeInfo, Error>)
    ensures r.Success? <==> |shape| >= 1
    ensures r.Success? ==> r.value.shape == shape && r.value.dtype == dtype
    ensures r.Success? ==> r.value.axiskeys == DefaultAxisKeys(|shape|)
    ensures r.Success? ==> r.value.metadata == DefaultMetadata(shape, dtype, DefaultAxisKeys(|shape|), 1.0, "")
  {
    var axiskeys := DefaultAxisKeys(|shape|);
    var md := CreateDefaultMetadata(shape, dtype, axiskeys, 1.0, "");
    if md.Failure? {
      return Failure(md.error);
    }
    r := Success(VolumeInfo(shape, dtype, axiskeys, md.value));
  }

  /** For one to five axes and at least one channel, the record built for an
      h5 dataset agrees with what parsing its own metadata would give. */
  lemma H5DefaultConsistent(shape: seq<nat>, dtype: DType)
    requires 1 <= |shape| <= 5 && shape[0] >= 1
    ensures var md := DefaultMetadata(shape, dtype, DefaultAxisKeys(|shape|), 1.0, "");
      InfoOf(md) == Success(VolumeInfo(shape, dtype, DefaultAxisKeys(|shape|), md))
  {
    DefaultInfoRoundTrip(shape, dtype, DefaultAxisKeys(|shape|), 1.0, "");
  }

  /** With more than five axes the keys run out: `zip` stops early and the
      metadata describes only the first five axes of the dataset. */
  lemma H5DefaultTruncates(shape: seq<nat>, dtype: DType)
    requires |shape| > 5
    ensures |ShapeOf(DefaultMetadata(shape, dtype, DefaultAxisKeys(|shape|), 1.0, ""))| == 5
  {
  }
}
