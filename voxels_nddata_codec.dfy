/** The nd-data generation's `VoxelsNddataCodec`: the same wire format as
    `VolumeCodec`, with the chunk bounds named `chunkStart` and `chunkStop`.
    The voxels metadata it is built from matters only through its dtype. */
module VoxelsNddataCodecs {
  import opened Wrappers
  import opened NdArrays
  import opened Errors
  import opened Http
  import opened CodecSpec

  class VoxelsNddataCodec {
    const dtype: DType

    constructor(dtype: DType)
      ensures this.dtype == dtype
    {
      this.dtype := dtype;
    }

    /** `decode_to_ndarray`: a Fortran-order array of exactly `fullRoiShape`
        with the metadata's dtype, filled from the stream. */
    method DecodeToNdarray(stream: InputStream, fullRoiShape: seq<nat>) returns (r: Result<NdArray, Error>)
      requires stream.Valid()
      modifies stream
      ensures stream.Valid()
      ensures r == Decoded(fullRoiShape, dtype, old(stream.Rest()))
      ensures r.Success? ==> stream.Rest() == old(stream.Rest())[BufferLen(fullRoiShape, dtype)..]
      ensures r.Failure? ==> stream.Rest() == []
    {
      var buf := new byte[CalculateBufferLen(fullRoiShape)];
      ghost var lengths;
      var ok;
      ok, lengths := ReadToBuffer(buf, stream);
      if !ok {
        return Failure(ShortRead);
      }
      r := Success(FromFortran(fullRoiShape, dtype, buf[..]));
    }

    /** `encode_from_ndarray`: a dtype mismatch is an error (the assertion
        message itself refers to a missing attribute, which raises too);
        otherwise the Fortran-order bytes are written out. */
    method EncodeFromNdarray(stream: OutputStream, a: NdArray) returns (r: Result<(), Error>)
      requires Valid(a)
      modifies stream
      ensures a.dtype != dtype ==> r == Failure(WrongDType) && stream.chunks == old(stream.chunks)
      ensures a.dtype == dtype ==>
                r == Success(()) && stream.chunks == old(stream.chunks) + Chunks(FortranBytes(a))
                && stream.Value() == old(stream.Value()) + FortranBytes(a)
    {
      if a.dtype != dtype {
        return Failure(WrongDType);
      }
      var contiguous := a;
      if a.order != F {
        contiguous := FromFortran(a.shape, a.dtype, FortranBytes(a));
      }
      var buf := new byte[|contiguous.data|](i requires 0 <= i < |contiguous.data| => contiguous.data[i]);
      assert buf[..] == FortranBytes(a);
      SendFromBuffer(buf, stream);
      FlattenAppend(old(stream.chunks), Chunks(FortranBytes(a)));
      r := Success(());
    }

    /** `calculate_buffer_len`: element count times element size. */
    function CalculateBufferLen(shape: seq<nat>): (n: nat)
      ensures n == BufferLen(shape, dtype)
      ensures n % ItemSize(dtype) == 0
    {
      var w := ItemSize(dtype);
      DivModSlot(Prod(shape), 0, w);
      Prod(shape) * w
    }

    /** `_read_to_buffer`: the chunks `[chunkStart, chunkStop)` are adjacent,
        each `min(remaining, 1000)` long, and cover the buffer once; the
        ghost `lengths` lists their lengths in order. */
    static method ReadToBuffer(buf: array<byte>, stream: InputStream) returns (ok: bool, ghost lengths: seq<nat>)
      requires stream.Valid()
      modifies buf, stream
      ensures stream.Valid()
      ensures ok <==> buf.Length <= |old(stream.Rest())|
      ensures ok ==> lengths == ChunkSizes(buf.Length)
      ensures ok ==> buf[..] == old(stream.Rest())[..buf.Length]
                     && stream.Rest() == old(stream.Rest())[buf.Length..]
      ensures !ok ==> stream.Rest() == []
    {
      ghost var input := stream.Rest();
      lengths := [];
      var remaining := buf.Length;
      while remaining > 0
        invariant 0 <= remaining <= buf.Length
        invariant stream.Valid()
        invariant buf.Length - remaining <= |input|
        invariant stream.Rest() == input[buf.Length - remaining..]
        invariant buf[..buf.Length - remaining] == input[..buf.Length - remaining]
        invariant lengths + ChunkSizes(remaining) == ChunkSizes(buf.Length)
      {
        var nextChunkBytes := Min(remaining, STREAM_CHUNK_SIZE);
        var chunkStart := buf.Length - remaining;
        var chunkStop := buf.Length - (remaining - nextChunkBytes);
        assert chunkStop - chunkStart == nextChunkBytes;
        RequestedStep(lengths, remaining, buf.Length);
        lengths := lengths + [nextChunkBytes];
        ghost var rest := stream.Rest();
        var filled := ReadIntoSlice(buf, chunkStart, nextChunkBytes, stream);
        if !filled {
          assert buf.Length > |input|;
          return false, lengths;
        }
        FillStep(buf[..], input, chunkStart, nextChunkBytes, rest);
        remaining := remaining - nextChunkBytes;
      }
      ok := true;
    }

    /** `_send_from_buffer`: write `buf[chunkStart:chunkStop]` for adjacent
        chunks of `min(remaining, 1000)` bytes. */
    static method SendFromBuffer(buf: array<byte>, stream: OutputStream)
      modifies stream
      ensures stream.chunks == old(stream.chunks) + Chunks(buf[..])
    {
      ghost var all := buf[..];
      var remaining := buf.Length;
      while remaining > 0
        invariant 0 <= remaining <= buf.Length
        invariant stream.chunks + Chunks(all[buf.Length - remaining..]) == old(stream.chunks) + Chunks(all)
      {
        var nextChunkBytes := Min(remaining, STREAM_CHUNK_SIZE);
        var chunkStart := buf.Length - remaining;
        var chunkStop := buf.Length - (remaining - nextChunkBytes);
        ghost var rest := all[chunkStart..];
        assert rest[..nextChunkBytes] == buf[chunkStart..chunkStop] && rest[nextChunkBytes..] == all[chunkStop..];
        SendStep(stream.chunks, rest, nextChunkBytes);
        stream.Write(buf[chunkStart..chunkStop]);
        remaining := remaining - nextChunkBytes;
      }
      assert all[buf.Length..] == [];
    }
  }
}
