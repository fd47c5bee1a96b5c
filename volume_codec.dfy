/** dvidclient's `VolumeCodec`: moves an array's Fortran-order bytes over a
    stream, 1000 bytes at a time. */
module VolumeCodecs {
  import opened Wrappers
  import opened NdArrays
  import opened Errors
  import opened Http
  import opened CodecSpec
  import opened VolumeMetainfo

  class VolumeCodec {
    const info: VolumeInfo

    constructor(info: VolumeInfo)
      ensures this.info == info
    {
      this.info := info;
    }

    /** `decode_to_ndarray`: allocate a Fortran-order array of exactly
        `fullRoiShape` (the volume's own shape plays no part) and fill it from
        the stream. */
    method DecodeToNdarray(stream: InputStream, fullRoiShape: seq<nat>) returns (r: Result<NdArray, Error>)
      requires stream.Valid()
      modifies stream
      ensures stream.Valid()
      ensures r == Decoded(fullRoiShape, info.dtype, old(stream.Rest()))
      ensures r.Success? ==> stream.Rest() == old(stream.Rest())[BufferLen(fullRoiShape, info.dtype)..]
      ensures r.Failure? ==> stream.Rest() == []
    {
      var buf := new byte[CalculateBufferLen(fullRoiShape)];
      ghost var requested;
      var ok;
      ok, requested := ReadToBuffer(buf, stream);
      if !ok {
        return Failure(ShortRead);
      }
      r := Success(FromFortran(fullRoiShape, info.dtype, buf[..]));
    }

    /** `encode_from_ndarray`: refuse another dtype; copy a non-Fortran array
        into Fortran order; write its bytes out. */
    method EncodeFromNdarray(stream: OutputStream, a: NdArray) returns (r: Result<(), Error>)
      requires Valid(a)
      modifies stream
      ensures a.dtype != info.dtype ==> r == Failure(WrongDType) && stream.chunks == old(stream.chunks)
      ensures a.dtype == info.dtype ==>
                r == Success(()) && stream.chunks == old(stream.chunks) + Chunks(FortranBytes(a))
                && stream.Value() == old(stream.Value()) + FortranBytes(a)
    {
      if a.dtype != info.dtype {
        return Failure(WrongDType);
      }
      var contiguous := a;
      if a.order != F {
        contiguous := FromFortran(a.shape, a.dtype, FortranBytes(a));
      }
      var buf := new byte[|contiguous.data|](i requires 0 <= i < |contiguous.data| => contiguous.data[i]);
      assert buf[..] == FortranBytes(a);
      SendFromBuffer(buf, stream);
      FlattenAppend(old(stream.chunks), Chunks(FortranBytes(a)));
      r := Success(());
    }

    /** `calculate_buffer_len`: element count times element size. */
    function CalculateBufferLen(shape: seq<nat>): (n: nat)
      ensures n == BufferLen(shape, info.dtype)
      ensures n % ItemSize(info.dtype) == 0
    {
      var w := ItemSize(info.dtype);
      DivModSlot(Prod(shape), 0, w);
      Prod(shape) * w
    }

    /** `_read_to_buffer`: request `min(remaining, 1000)` bytes at a time
        into the next slice of `buf`, front to back. A read that comes back
        short cannot fill its slice, and the decode fails. */
    static method ReadToBuffer(buf: array<byte>, stream: InputStream) returns (ok: bool, ghost requested: seq<nat>)
      requires stream.Valid()
      modifies buf, stream
      ensures stream.Valid()
      ensures ok <==> buf.Length <= |old(stream.Rest())|
      ensures ok ==> requested == ChunkSizes(buf.Length)
      ensures ok ==> buf[..] == old(stream.Rest())[..buf.Length]
                     && stream.Rest() == old(stream.Rest())[buf.Length..]
      ensures !ok ==> stream.Rest() == []
    {
      ghost var input := stream.Rest();
      requested := [];
      var remaining := buf.Length;
      while remaining > 0
        invariant 0 <= remaining <= buf.Length
        invariant stream.Valid()
        invariant buf.Length - remaining <= |input|
        invariant stream.Rest() == input[buf.Length - remaining..]
        invariant buf[..buf.Length - remaining] == input[..buf.Length - remaining]
        invariant requested + ChunkSizes(remaining) == ChunkSizes(buf.Length)
      {
        var n := Min(remaining, STREAM_CHUNK_SIZE);
        var start := buf.Length - remaining;
        RequestedStep(requested, remaining, buf.Length);
        requested := requested + [n];
        ghost var rest := stream.Rest();
        var filled := ReadIntoSlice(buf, start, n, stream);
        if !filled {
          assert buf.Length > |input|;
          return false, requested;
        }
        FillStep(buf[..], input, start, n, rest);
        remaining := remaining - n;
      }
      ok := true;
    }

    /** `_send_from_buffer`: write `buf` out in slices of `min(remaining,
        1000)` bytes, front to back. */
    static method SendFromBuffer(buf: array<byte>, stream: OutputStream)
      modifies stream
      ensures stream.chunks == old(stream.chunks) + Chunks(buf[..])
    {
      ghost var all := buf[..];
      var remaining := buf.Length;
      while remaining > 0
        invariant 0 <= remaining <= buf.Length
        invariant stream.chunks + Chunks(all[buf.Length - remaining..]) == old(stream.chunks) + Chunks(all)
      {
        var n := Min(remaining, STREAM_CHUNK_SIZE);
        var start := buf.Length - remaining;
        ghost var rest := all[start..];
        assert rest[..n] == buf[start..start + n] && rest[n..] == all[start + n..];
        SendStep(stream.chunks, rest, n);
        stream.Write(buf[start..start + n]);
        remaining := remaining - n;
      }
      assert all[buf.Length..] == [];
    }
  }

  /** Encoding into a fresh buffer stream and decoding it back with the
      array's own shape gives an array of the same shape and dtype, in
      Fortran order, equal element by element, whether the original was in
      C or Fortran order. */
  method EncodeDecode(codec: VolumeCodec, a: NdArray) returns (r: Result<NdArray, Error>)
    requires Valid(a) && a.dtype == codec.info.dtype
    ensures r.Success? && Valid(r.value)
    ensures r.value.shape == a.shape && r.value.dtype == a.dtype && r.value.order == F
    ensures forall idx :: InBounds(a.shape, idx) ==> Element(r.value, idx) == Element(a, idx)
  {
    var output := new OutputStream();
    var encoded := codec.EncodeFromNdarray(output, a);
    var input := new InputStream(output.Value());
    r := codec.DecodeToNdarray(input, a.shape);
    forall idx | InBounds(a.shape, idx)
      ensures Element(r.value, idx) == Element(a, idx)
    {
      EncodeDecodeRoundTrip(a, idx);
    }
  }
}
