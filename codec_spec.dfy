/** What both codecs promise, as functions: how the stream loops chunk a
    buffer, and which array decoding a body yields. */
module CodecSpec {
  import opened Wrappers
  import opened NdArrays
  import opened Errors
  import opened Http

  /** Bytes moved per `read`/`write` call. */
  const STREAM_CHUNK_SIZE: nat := 1000

  /** Content type of uploaded voxel data. */
  const VOLUME_MIMETYPE: string := "application/octet-stream"

  function Sum(xs: seq<nat>): nat
  {
    if |xs| == 0 then 0 else xs[0] + Sum(xs[1..])
  }

  /** The chunk lengths `min(remaining, 1000)` the loops take for an n-byte
      buffer, in order. */
  function ChunkSizes(n: nat): seq<nat>
    decreases n
  {
    if n == 0 then [] else [Min(n, STREAM_CHUNK_SIZE)] + ChunkSizes(n - Min(n, STREAM_CHUNK_SIZE))
  }

  /** The chunks tile the buffer: they add up to n, none is empty or longer
      than 1000 bytes, and all but the last are exactly 1000 bytes. */
  lemma {:induction false} ChunkSizesTile(n: nat)
    ensures Sum(ChunkSizes(n)) == n
    ensures forall k :: 0 <= k < |ChunkSizes(n)| ==> 0 < ChunkSizes(n)[k] <= STREAM_CHUNK_SIZE
    ensures forall k :: 0 <= k < |ChunkSizes(n)| - 1 ==> ChunkSizes(n)[k] == STREAM_CHUNK_SIZE
    decreases n
  {
    if n > 0 {
      ChunkSizesTile(n - Min(n, STREAM_CHUNK_SIZE));
    }
  }

  /** The slices `_send_from_buffer` writes, in order; they concatenate back
      to the buffer. */
  function Chunks(s: seq<byte>): (cs: seq<seq<byte>>)
    ensures Flatten(cs) == s
    decreases |s|
  {
    if |s| == 0 then []
    else
      var n := Min(|s|, STREAM_CHUNK_SIZE);
      assert s[..n] + s[n..] == s;
      [s[..n]] + Chunks(s[n..])
  }

  /** Each written slice has the length the loop computed for it. */
  lemma {:induction false} ChunksSizes(s: seq<byte>)
    ensures |Chunks(s)| == |ChunkSizes(|s|)|
    ensures forall k :: 0 <= k < |Chunks(s)| ==> |Chunks(s)[k]| == ChunkSizes(|s|)[k]
    decreases |s|
  {
    if |s| > 0 {
      ChunksSizes(s[Min(|s|, STREAM_CHUNK_SIZE)..]);
    }
  }

  /** One step of the loops: the first chunk, then the chunks of the rest. */
  lemma ChunkSizesStep(n: nat)
    requires n > 0
    ensures ChunkSizes(n) == [Min(n, STREAM_CHUNK_SIZE)] + ChunkSizes(n - Min(n, STREAM_CHUNK_SIZE))
  {
  }

  /** The loops' bookkeeping: the sizes requested so far, followed by the
      chunking of what remains, is the chunking of the whole buffer. */
  lemma RequestedStep(requested: seq<nat>, remaining: nat, total: nat)
    requires remaining > 0 && requested + ChunkSizes(remaining) == ChunkSizes(total)
    ensures (requested + [Min(remaining, STREAM_CHUNK_SIZE)]) + ChunkSizes(remaining - Min(remaining, STREAM_CHUNK_SIZE))
         == ChunkSizes(total)
  {
    ChunkSizesStep(remaining);
  }

  lemma ChunksStep(s: seq<byte>, n: nat)
    requires |s| > 0 && n == Min(|s|, STREAM_CHUNK_SIZE)
    ensures Chunks(s) == [s[..n]] + Chunks(s[n..])
  {
  }

  /** One step of the read loops: a buffer that agreed with the input up to
      `start`, and then had the next `n` input bytes stored at `start`,
      agrees with the input up to `start + n`. */
  lemma FillStep(now: seq<byte>, input: seq<byte>, start: nat, n: nat, rest: seq<byte>)
    requires start + n <= |now| && start + n <= |input| && rest == input[start..]
    requires now[..start] == input[..start] && now[start..start + n] == rest[..n]
    ensures now[..start + n] == input[..start + n]
    ensures rest[n..] == input[start + n..]
  {
    assert now[..start + n] == now[..start] + now[start..start + n];
    assert input[..start + n] == input[..start] + input[start..start + n];
    assert rest[..n] == input[start..start + n];
  }

  /** One step of the send loops: the slices written so far plus the first
      slice of the rest, followed by the slices of what then remains, are the
      slices written so far followed by the slices of the rest. */
  lemma SendStep(written: seq<seq<byte>>, rest: seq<byte>, n: nat)
    requires |rest| > 0 && n == Min(|rest|, STREAM_CHUNK_SIZE)
    ensures (written + [rest[..n]]) + Chunks(rest[n..]) == written + Chunks(rest)
  {
    ChunksStep(rest, n);
    AppendAssoc(written, [rest[..n]], Chunks(rest[n..]));
  }

  lemma AppendAssoc<T>(a: seq<T>, b: seq<T>, c: seq<T>)
    ensures (a + b) + c == a + (b + c)
  {
  }

  /** `calculate_buffer_len`: bytes of an array of that shape and dtype. */
  function BufferLen(shape: seq<nat>, dtype: DType): nat
  {
    Prod(shape) * ItemSize(dtype)
  }

  /** The array `decode_to_ndarray` yields from a body: the first BufferLen
      bytes, read as a Fortran-order array of exactly `shape`; a body shorter
      than that cannot fill the buffer. */
  function Decoded(shape: seq<nat>, dtype: DType, body: seq<byte>): (r: Result<NdArray, Error>)
    ensures r.Success? <==> BufferLen(shape, dtype) <= |body|
    ensures r.Success? ==> Valid(r.value) && r.value.shape == shape && r.value.dtype == dtype && r.value.order == F
  {
    var n := BufferLen(shape, dtype);
    if n <= |body| then Success(FromFortran(shape, dtype, body[..n])) else Failure(ShortRead)
  }

  /** The encoding of a valid array is exactly one buffer of its shape long. */
  lemma EncodedLength(a: NdArray)
    requires Valid(a)
    ensures |FortranBytes(a)| == BufferLen(a.shape, a.dtype)
  {
  }

  /** Decoding the encoding of an array with its own shape gives back an array
      of the same shape and dtype, in Fortran order, equal element by element,
      whatever the layout of the original. */
  lemma EncodeDecodeRoundTrip(a: NdArray, idx: seq<nat>)
    requires Valid(a) && InBounds(a.shape, idx)
    ensures Decoded(a.shape, a.dtype, FortranBytes(a)).Success?
    ensures Element(Decoded(a.shape, a.dtype, FortranBytes(a)).value, idx) == Element(a, idx)
  {
    var bytes := FortranBytes(a);
    assert bytes[..BufferLen(a.shape, a.dtype)] == bytes;
    FortranBytesElement(a, idx);
  }
}
