/** The nd-data generation's `VolumeMetadata`: the metadata document itself,
    with shape, dtype and axis keys set once by the constructor. */
module VolumeMetadataModule {
  import opened Wrappers
  import opened Text
  import opened NdArrays
  import opened Errors
  import opened Schema

  class VolumeMetadata {
    /** The copied document (the dict base class). */
    const doc: Metadata
    var shape: seq<int>
    var dtype: DType
    var axiskeys: string

    /** The derived fields agree with the document. */
    ghost predicate Valid()
      reads this
    {
      DTypeOf(doc) == Success(dtype) && shape == ShapeOf(doc) && axiskeys == AxisKeysOf(doc)
    }

    /** The part of `__init__` after the dtype check: shape, then axis keys. */
    constructor FromChecked(md: Metadata, dtype: DType)
      requires DTypeOf(md) == Success(dtype)
      ensures Valid() && doc == md
    {
      doc := md;
      this.dtype := dtype;
      var s, k := ParseAxes(md);
      shape := s;
      axiskeys := k;
    }

    /** `VolumeMetadata(metadata)`: fails as the document's dtype does;
        otherwise every field is derived from the document, so building again
        from `doc` gives the same fields. */
    static method New(md: Metadata) returns (r: Result<VolumeMetadata, Error>)
      ensures r.Success? <==> DTypeOf(md).Success?
      ensures r.Failure? ==> r.error == DTypeOf(md).error
      ensures r.Success? ==> fresh(r.value) && r.value.Valid() && r.value.doc == md
    {
      var d := ParseChannelDTypes(md);
      if d.Failure? {
        return Failure(d.error);
      }
      var m := new VolumeMetadata.FromChecked(md, d.value);
      r := Success(m);
    }

    /** `create_default_metadata`: `axiskeys[0] == 'c'`, one key per axis,
        and the resulting document must describe at least one channel. */
    static method CreateDefaultMetadata(shape: seq<int>, dtype: DType, axiskeys: string, resolution: real, units: string)
      returns (r: Result<VolumeMetadata, Error>)
      ensures |axiskeys| == 0 ==> r == Failure(EmptyVector)
      ensures |axiskeys| >= 1 && axiskeys[0] != 'c' ==> r == Failure(MissingChannelAxis)
      ensures |axiskeys| >= 1 && axiskeys[0] == 'c' && |axiskeys| != |shape| ==> r == Failure(KeysShapeMismatch)
      ensures |axiskeys| >= 1 && axiskeys[0] == 'c' && |axiskeys| == |shape| && shape[0] <= 0
              ==> r == Failure(EmptyVector)
      ensures |axiskeys| >= 1 && axiskeys[0] == 'c' && |axiskeys| == |shape| && shape[0] >= 1 ==>
                r.Success? && fresh(r.value) && r.value.Valid()
                && r.value.doc == DefaultMetadata(shape, dtype, axiskeys, resolution, units)
                && r.value.shape == shape && r.value.dtype == dtype && r.value.axiskeys == Lower(axiskeys)
    {
      if |axiskeys| == 0 {
        return Failure(EmptyVector);
      }
      if axiskeys[0] != 'c' {
        return Failure(MissingChannelAxis);
      }
      if |axiskeys| != |shape| {
        return Failure(KeysShapeMismatch);
      }
      var md := BuildDefaultMetadata(shape, dtype, axiskeys, resolution, units);
      if shape[0] >= 1 {
        DefaultMetadataRoundTrip(shape, dtype, axiskeys, resolution, units);
      } else {
        DefaultMetadataNoChannels(shape, dtype, axiskeys, resolution, units);
      }
      r := New(md);
    }

    /** `determine_dvid_typename` on `(dtype, shape[0])`. */
    method DetermineDvidTypename() returns (r: Result<string, Error>)
      ensures r == ShapeTypename(dtype, shape)
    {
      if |shape| == 0 {
        return Failure(EmptyVector);
      }
      r := DvidTypename(dtype, shape[0]);
    }

    /** The default branch of `create_from_h5_dataset`: keys
        `'cxyzt'[:len(shape)]`, which succeeds only for one to five axes and
        at least one channel. */
    static method CreateFromH5Default(shape: seq<nat>, dtype: DType) returns (r: Result<VolumeMetadata, Error>)
      ensures r.Success? <==> 1 <= |shape| <= 5 && shape[0] >= 1
      ensures |shape| > 5 ==> r == Failure(KeysShapeMismatch)
      ensures r.Success? ==>
                fresh(r.value) && r.value.Valid() && r.value.shape == shape
                && r.value.dtype == dtype && r.value.axiskeys == DefaultAxisKeys(|shape|)
    {
      var axiskeys := DefaultAxisKeys(|shape|);
      LowerOfLowercase(axiskeys);
      r := CreateDefaultMetadata(shape, dtype, axiskeys, 1.0, "");
    }
  }
}
