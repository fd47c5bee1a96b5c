# pydvid / dvidclient: subvolume requests, byte codec and mock server

A Dafny model of the protocol layer of the Python DVID clients `dvidclient`
and `pydvid`, and of the HDF5-backed mock server they are tested against.
The model covers:

- the two generations of subvolume path formatting, with their bounds
  checks. `VolumeClient._format_subvolume_rest_query` drops the channel
  entry at the given channel index. `_format_subvolume_rest_uri` drops
  axis 0 and adds a `/raw/` segment and an optional format;
- the client calls that send those requests on a connection and judge the
  answers: status checks, the decode of exactly one buffer of the
  full-channel box, the "excess bytes" check and the channel slicing.
  The client operations are module-level methods or methods of the
  client classes. Each takes a `Connection` and may modify only its `sent`
  field, the log of the requests issued, so "fails before any request" is
  a postcondition;
- the chunked byte codecs `VolumeCodec` and `VoxelsNddataCodec`. Their
  `_read_to_buffer` fills an `array<byte>` in place, and their
  `_send_from_buffer` writes a buffer out, both in chunks of at most 1000
  bytes. Around them sit `calculate_buffer_len`, Fortran-order
  linearisation and the encode/decode round trip;
- the volume metadata records `VolumeInfo` and `VolumeMetadata`. The model
  covers deriving shape, dtype and axis keys from a parsed document,
  `create_default_metadata` and its round trip, the four-entry DVID
  type-name table and the default h5 branch;
- `VoxelsAccessor`'s numpy-style slicing. This means expanding `...` and
  missing axes, making open bounds explicit, splitting a slicing into a
  dense request box and a result slicing, and the checks of `__setitem__`
  and the metadata refresh of `post_ndarray`;
- the mock server's request dispatcher, volume creation, info query, ROI
  parser and channel prepend. Round-trip lemmas connect it to the client's
  formatter: the server parses back exactly the box the client asked for,
  and stores a client write over exactly the requested box.

Responses are parameters `Response(status, reason, body)`. JSON decoding,
which the model does not see, is a function parameter
(`parse: seq<byte> -> Option<...>` in the clients, `decodeJson` in the
mock server). Python's exceptions are the
`Failure` cases of a `Result`.

A few points of the client code that shape the model:

- The dims segment is `"_".join(range(len(shape) - 1))`
  (dvidclient/volume_client.py:181-182). For the five-axis cutout of
  `tests/test_volume_client.py` it is `0_1_2_3`.
- Extents and offsets are written in the caller's (Fortran) axis order, with
  the channel entry removed and the remaining axes in their given order.
- Paths carry the `/api` prefix.
- The DVID type name is looked up by element type and **channel** count
  (`shape[0]`).
- `encode_from_ndarray` checks only the element type, not the shape.

## Model

| member | source | states |
|---|---|---|
| Text.ParseIntOfDecimal | mockserver/h5mockserver.py:274-275 | `int(str(i)) == i` for every integer, negative ones included |
| Text.SplitOfJoin | mockserver/h5mockserver.py:274-275 | `sep.join(parts).split(sep) == parts` when no part contains the separator |
| Text.ParseIntsOfJoinInts | mockserver/h5mockserver.py:274-275 | parsing `"_".join(map(str, xs))` back with `int(x) for x in s.split('_')` gives `xs` for every non-empty integer vector |
| Text.JoinIntsAvoids | dvidclient/volume_client.py:178-179 | a `_`-joined coordinate list contains no character other than digits, `-` and `_`, so no `/` |
| Text.LowerOfUpper | dvidclient/volume_metainfo.py:74 | a label written upper-cased and read back lower-cased equals the lower-cased original |
| NdArrays.ParseDTypeName | dvidclient/volume_metainfo.py:68 | `numpy.dtype(d.name) == d` for every modelled dtype, so the `DataType` written by `create_default_metadata` reads back as the same dtype |
| NdArrays.FOffset | dvidclient/volume_codec.py:31-34 | the Fortran-order position of an in-bounds index lies inside the buffer |
| NdArrays.FIndex | dvidclient/volume_codec.py:31-34 | every buffer position is the Fortran-order position of some in-bounds index |
| NdArrays.FIndexOfFOffset | dvidclient/volume_codec.py:31-34 | Fortran linearisation is injective: the index at an index's own position is that index |
| NdArrays.FromFortran | dvidclient/volume_codec.py:32-37 | the array built over a buffer of the right size is valid, in Fortran order, with the requested shape and dtype, and its data is the buffer itself |
| NdArrays.FromFortranElement | dvidclient/volume_codec.py:32-37 | the element at every in-bounds index of the array built over a buffer is the buffer's item-sized slot at that index's Fortran position |
| NdArrays.FortranBytesElement | dvidclient/volume_codec.py:53-59 | copying an array into Fortran order (or using it as is when already Fortran) keeps every element at its index |
| NdArrays.SliceChannels | dvidclient/volume_client.py:139 | `a[lo:hi]` is a valid Fortran array of the same dtype and shape `[hi - lo] + a.shape[1:]` |
| NdArrays.SliceChannelsElement | dvidclient/volume_client.py:139 | element `idx` of `a[lo:hi]` is element `idx` of `a` with its channel moved up by `lo` |
| Schema.ParseChannelDTypes | dvidclient/volume_metainfo.py:66-71 | the channel loop yields the first channel's dtype when all channels agree; an unknown name, differing dtypes or no channels is the corresponding error |
| Schema.ChannelDTypesUnknownPrefix | dvidclient/volume_metainfo.py:67-68 | one unknown `DataType` makes the whole channel list fail |
| Schema.ParseAxes | dvidclient/volume_metainfo.py:62-76 | shape is `(len(Values),)` followed by each Axes `Size` in order; axis keys are `'c'` followed by the lower-cased labels |
| Schema.AxisKeysLength | dvidclient/volume_metainfo.py:73-76 | with one-character labels, `len(axiskeys) == len(shape)` |
| Schema.DefaultAxes | dvidclient/volume_metainfo.py:111-117 | one Axes entry per `(key, size)` pair after the channel, as many as the shorter of the two allows |
| Schema.DefaultValues | dvidclient/volume_metainfo.py:120-123 | `shape[0]` channel entries, none when the count is not positive |
| Schema.DefaultAxesAt | dvidclient/volume_metainfo.py:111-117 | Axes entry `k-1` has label `axiskeys[k].upper()`, size `shape[k]`, and the given resolution and units |
| Schema.BuildDefaultMetadata | dvidclient/volume_metainfo.py:109-124 | the two loops build exactly the default document |
| Schema.AxisSizesOfDefault | dvidclient/volume_metainfo.py:109-124 | the sizes of the default Axes are `shape[1:]` when the keys cover the shape |
| Schema.LabelKeysOfDefault | dvidclient/volume_metainfo.py:111-117 | the default Axes labels, lower-cased, are `axiskeys[1:]` lower-cased |
| Schema.ChannelDTypesOfDefault | dvidclient/volume_metainfo.py:120-123 | every default channel has the given dtype |
| Schema.DefaultMetadataRoundTrip | dvidclient/volume_metainfo.py:62-124 | reading the default document back gives the original shape, the lower-cased keys and the dtype |
| Schema.DefaultMetadataNoChannels | dvidclient/volume_metainfo.py:66-79 | a default document with no channels has no dtype (`dtypes[0]` fails) |
| Schema.DvidTypename | dvidclient/volume_metainfo.py:126-139 | success exactly for (uint8,1), (uint32,1), (uint64,1) and (uint8,4); any other pair is an error naming it |
| Schema.DvidTypenameInjective | dvidclient/volume_metainfo.py:127-130 | the table is one-to-one: a type name determines dtype and channel count |
| Schema.DefaultAxisKeys | dvidclient/volume_metainfo.py:196-197 | `'cxyzt'[:n]` has `min(n, 5)` keys, starts with `c` and is lower-case |
| Http.ReadIntoSlice | dvidclient/volume_codec.py:78 | `buf[a:a+n] = stream.read(n)` succeeds iff `n` bytes remain; it writes them at `a..a+n` and leaves `buf[:a]` alone |
| CodecSpec.ChunkSizesTile | dvidclient/volume_codec.py:75-79 | the chunk lengths `min(remaining, 1000)` sum to the buffer length; each is between 1 and 1000, and all but the last are 1000 |
| CodecSpec.Chunks | dvidclient/volume_codec.py:86-90 | the written slices concatenate to the buffer |
| CodecSpec.ChunksSizes | dvidclient/volume_codec.py:86-90 | slice `k` has the loop's `k`-th chunk length |
| CodecSpec.Decoded | dvidclient/volume_codec.py:20-39 | decoding succeeds iff the body holds one buffer of the shape; the result is valid, of exactly that shape and dtype, in Fortran order |
| CodecSpec.EncodedLength | dvidclient/volume_codec.py:59-63 | the encoding of an array is `calculate_buffer_len(a.shape)` bytes long |
| CodecSpec.EncodeDecodeRoundTrip | tests/test_volume_codec.py:44-60 | decoding the encoding of any valid array, in C or F order, with its own shape gives back every element |
| VolumeMetainfo.InfoOf | dvidclient/volume_metainfo.py:62-79 | `VolumeInfo(metadata)` succeeds iff the document has a dtype |
| VolumeMetainfo.FromMetadata | dvidclient/volume_metainfo.py:62-79 | the constructor's loops give shape, dtype and axis keys of the document, or its dtype error |
| VolumeMetainfo.CreateDefaultMetadata | dvidclient/volume_metainfo.py:104-124 | empty keys or shape, and a first key other than `c`, are errors; otherwise the result is the default document |
| VolumeMetainfo.DefaultInfoRoundTrip | dvidclient/volume_metainfo.py:198-199 | `VolumeInfo(create_default_metadata(...))` has the given shape, dtype and (lower-case) keys |
| Schema.ShapeTypename | dvidclient/volume_metainfo.py:126-139 | `determine_dvid_typename` of every metadata record: success exactly for a non-empty shape whose `(dtype, shape[0])` is in the four-entry table; otherwise the missing channel count or the pair without a name |
| VolumeMetainfo.CreateFromH5Default | dvidclient/volume_metainfo.py:194-199 | keys `'cxyzt'[:len(shape)]`, the dataset's shape and dtype, and the default document, for any non-empty shape |
| VolumeMetainfo.H5DefaultConsistent | dvidclient/volume_metainfo.py:194-199 | for 1 to 5 axes with channels, the record agrees with parsing its own document |
| VolumeMetainfo.H5DefaultTruncates | dvidclient/volume_metainfo.py:111 | with more than five axes, the document describes only five |
| VolumeMetadataModule.VolumeMetadata.New | dvidclient/voxels/volume_metadata.py:40-76 | fails as the document's dtype does; otherwise the fields are shape, dtype and keys derived from the copied document |
| VolumeMetadataModule.VolumeMetadata.CreateDefaultMetadata | dvidclient/voxels/volume_metadata.py:108-127 | the two asserts, then an object whose shape equals the input shape, with the dtype and the lower-cased keys; no channels is an error |
| VolumeMetadataModule.VolumeMetadata.DetermineDvidTypename | dvidclient/voxels/volume_metadata.py:129-142 | the record's `(dtype, shape)` looked up by `ShapeTypename` |
| VolumeMetadataModule.VolumeMetadata.CreateFromH5Default | dvidclient/voxels/volume_metadata.py:197-201 | succeeds iff 1 to 5 axes and at least one channel; then shape, dtype and `'cxyzt'[:n]` keys |
| VolumeCodecs.VolumeCodec.DecodeToNdarray | dvidclient/volume_codec.py:20-39 | result equals `Decoded(full_roi_shape, dtype, stream)`; on success exactly one buffer is consumed |
| VolumeCodecs.VolumeCodec.EncodeFromNdarray | dvidclient/volume_codec.py:41-60 | another dtype is refused with nothing written; otherwise the written chunks are `Chunks` of the Fortran bytes |
| VolumeCodecs.VolumeCodec.CalculateBufferLen | dvidclient/volume_codec.py:62-63 | product of the shape times the element size, a multiple of the element size |
| VolumeCodecs.VolumeCodec.ReadToBuffer | dvidclient/volume_codec.py:65-79 | succeeds iff the stream holds enough; then the chunk requests are `ChunkSizes(len(buf))` and `buf` holds the stream's first bytes |
| VolumeCodecs.VolumeCodec.SendFromBuffer | dvidclient/volume_codec.py:81-90 | the stream receives exactly `Chunks(buf)` |
| VolumeCodecs.EncodeDecode | tests/test_volume_codec.py:11-25 | encode into a StringIO and decode it back: same shape and dtype, Fortran order, every element equal |
| VoxelsNddataCodecs.VoxelsNddataCodec.DecodeToNdarray | dvidclient/voxels/voxels_nddata_codec.py:20-36 | as `VolumeCodec.decode_to_ndarray`, with the metadata dtype |
| VoxelsNddataCodecs.VoxelsNddataCodec.EncodeFromNdarray | dvidclient/voxels/voxels_nddata_codec.py:38-59 | a dtype mismatch is an error with nothing written; otherwise the Fortran bytes in chunks |
| VoxelsNddataCodecs.VoxelsNddataCodec.CalculateBufferLen | dvidclient/voxels/voxels_nddata_codec.py:61-62 | product of the shape times the element size |
| VoxelsNddataCodecs.VoxelsNddataCodec.ReadToBuffer | dvidclient/voxels/voxels_nddata_codec.py:64-80 | the chunks `[chunk_start, chunk_stop)` are adjacent, have lengths `ChunkSizes(len(buf))` and fill `buf` from the stream |
| VoxelsNddataCodecs.VoxelsNddataCodec.SendFromBuffer | dvidclient/voxels/voxels_nddata_codec.py:82-93 | the stream receives exactly `Chunks(buf)` |
| Subvolumes.RemoveAt | dvidclient/volume_client.py:173-174 | `numpy.delete(s, i)` removes entry `i` and keeps the others in order |
| Subvolumes.NormalIndex | dvidclient/volume_client.py:172-173 | a negative channel index counts from the end |
| Subvolumes.RemoveFirstKeepsBounds | dvidclient/volume_client.py:164-174 | dropping the channel entry of a valid request leaves a valid request on the remaining axes |
| Subvolumes.ValidBounds | dvidclient/volume_client.py:164-169 | the five bound assertions; a request that passes them names a box of equal-length vectors whose every extent lies in `1 .. shape[k]` |
| Subvolumes.FullChannelCheck | dvidclient/volume_client.py:142-143 | passes iff `start[0] == 0` and `stop[0] == shape[0]`; otherwise `PartialChannels`, or an empty-vector error |
| VolumeClients.ErrorResponseText | dvidclient/volume_client.py:29-35 | the caption, followed exactly when the status is 500 by the literal `Server response body:\n` and then the server body |
| VolumeClients.FormatSubvolumeRestQuery | dvidclient/volume_client.py:159-189 | succeeds iff the five bounds assertions hold and the channel index is in range; the path is `/api/node/{uuid}/{name}/{dims}/{extents}/{offsets}` over the axes without the channel |
| VolumeClients.CutoutExampleQuery | tests/test_volume_client.py:71 | the test's cutout gives `.../0_1_2_3/100_15_1_4/50_5_9_0` |
| VolumeClients.FullRoiShape | dvidclient/volume_client.py:124-126 | `stop - start` with the channel extent replaced by the full channel count |
| VolumeClients.RetrievedArray | dvidclient/volume_client.py:119-139 | success iff status 200 and the body is exactly one buffer of the full-channel box; then the shape is `stop - start` |
| VolumeClients.RetrievedElements | dvidclient/volume_client.py:138-139 | element `idx` of the result is the decoded element at `idx` with its channel moved up by `start[0]` |
| VolumeClients.ModifyQuery | dvidclient/volume_client.py:141-145 | a partial channel range is refused before the formatter; a full-channel request gets exactly the formatter's answer, so success implies full channels and the formatter's path |
| VolumeClients.CreateVolume | dvidclient/volume_client.py:37-59 | no type name: error with nothing sent; otherwise one POST to the creation path, then success only on an empty 204 |
| VolumeClients.QueryDatasetsInfo | dvidclient/volume_client.py:61-82 | one GET of `/api/datasets/info`; non-200 is an error; otherwise the decoded body or a JSON error |
| VolumeClients.VolumeClient.Open | dvidclient/volume_client.py:84-105 | one GET of the schema path; the client exists iff status 200 and the body decodes |
| VolumeClients.VolumeClient.RetrieveSubvolume | dvidclient/volume_client.py:109-139 | an invalid request fails with nothing sent; otherwise one GET of the formatted path, judged by `RetrievedArray` |
| VolumeClients.VolumeClient.ModifySubvolume | dvidclient/volume_client.py:141-157 | channel and bounds errors, then a dtype error, with nothing sent; otherwise one POST of the Fortran bytes, success iff 204 |
| Voxels.ValidateQueryBounds | pydvid/voxels/voxels.py:124-137 | passes iff full channels and the five bounds assertions hold; the channel checks come first |
| Voxels.DropChannel | pydvid/voxels/voxels.py:104-106 | `s[1:]` |
| Voxels.FormatSubvolumeRestUri | pydvid/voxels/voxels.py:97-122 | the `/raw/` path over `start[1:]`, `stop[1:]`, with `/format` appended iff the format is non-empty |
| Voxels.RawUriExtendsQuery | pydvid/voxels/voxels.py:97-122 | for a valid request, pydvid's URI is dvidclient's path with `/raw` inserted after the data name |
| Voxels.FetchedNdarray | pydvid/voxels/voxels.py:43-63 | success iff status 200 and the body is exactly one buffer; a short body is a short read, a long one excess data, and the array is the full-channel box |
| Voxels.GetMetadata | pydvid/voxels/voxels.py:12-18 | one GET of `.../metadata`; non-200 is an HTTP error; otherwise the decoded document |
| Voxels.CreateNew | pydvid/voxels/voxels.py:20-41 | one POST to the creation path; success only on an empty 200 |
| Voxels.GetSubvolumeResponse | pydvid/voxels/voxels.py:83-94 | one GET of the URI; non-200 is an HTTP error naming verb and URI |
| Voxels.GetNdarray | pydvid/voxels/voxels.py:43-63 | bounds are validated before any request; then one GET, judged by `FetchedNdarray` |
| Voxels.ReadNdarray | pydvid/voxels/voxels.py:47-63 | reading a 200 answer into a buffer of the box's byte size yields exactly `FetchedNdarray`: the array, a short read or excess data |
| Voxels.PostRequest | pydvid/voxels/voxels.py:65-72 | the validation error, then the dtype error; otherwise a POST of the Fortran bytes to the `/raw/` URI |
| Voxels.PostAnswer | pydvid/voxels/voxels.py:73-81 | success iff status 200 |
| Voxels.PostNdarray | pydvid/voxels/voxels.py:65-81 | nothing sent on a refused request; otherwise exactly `PostRequest`'s request, judged by `PostAnswer` |
| VoxelsAccessors.FirstEllipsis | pydvid/voxels/voxels_accessor.py:271 | `s.index(Ellipsis)`: an `...` with none before it |
| VoxelsAccessors.ExpandSlicing | pydvid/voxels/voxels_accessor.py:236-285 | too long iff longer than the shape and not `[:]`/`[...]`; two `...` is an error; otherwise one item per axis, with the first `...` widened and the end padded with `:` |
| VoxelsAccessors.ExpandIntExample | pydvid/voxels/voxels_accessor.py:252 | `0` on five axes becomes `(0,:,:,:,:)` |
| VoxelsAccessors.ExpandEllipsisExample | pydvid/voxels/voxels_accessor.py:255 | `...` on five axes becomes `(:,:,:,:,:)` |
| VoxelsAccessors.ExpandInnerEllipsisExample | pydvid/voxels/voxels_accessor.py:256 | `(0,0,...,4)` on five axes becomes `(0,0,:,:,4)` |
| VoxelsAccessors.ExplicitItem | pydvid/voxels/voxels_accessor.py:225-233 | integers kept; an open start becomes 0, an open stop `shape[i]`; the step is kept |
| VoxelsAccessors.ExplicitOf | pydvid/voxels/voxels_accessor.py:223-234 | one explicit item per position of `zip(slicing, shape)` |
| VoxelsAccessors.ExplicitSlicing | pydvid/voxels/voxels_accessor.py:217-234 | the loop builds exactly `ExplicitOf` |
| VoxelsAccessors.ExpandedIsExplicit | pydvid/voxels/voxels_accessor.py:124-126 | an expanded slicing made explicit has one bounded item per axis |
| VoxelsAccessors.RequestItem | pydvid/voxels/voxels_accessor.py:204-208 | a slice is requested as is, an integer `i` as `i:i+1` |
| VoxelsAccessors.ResultItem | pydvid/voxels/voxels_accessor.py:204-209 | a slice `a:b:st` becomes `0:b-a:st`, an integer becomes `0` |
| VoxelsAccessors.RequestSlicings | pydvid/voxels/voxels_accessor.py:192-215 | item by item, then request channel `0:shape[0]` and result channel the caller's own item |
| VoxelsAccessors.DetermineRequestSlicings | pydvid/voxels/voxels_accessor.py:192-215 | the loop and the two index-0 overwrites build exactly `RequestSlicings` |
| VoxelsAccessors.RequestResultCompose | pydvid/voxels/voxels_accessor.py:127-133 | on every non-channel axis, the result item read inside the request selects the caller's item |
| VoxelsAccessors.RequestCoversChannels | pydvid/voxels/voxels_accessor.py:211-212 | every request box covers all channels |
| VoxelsAccessors.SetItemCheck | pydvid/voxels/voxels_accessor.py:165-188 | a stepped slice, a partial channel slicing or a wrong element count is refused; otherwise the box's start and stop |
| VoxelsAccessors.CheckWrite | pydvid/voxels/voxels_accessor.py:160-188 | expansion, explicit bounds, the request/result split and the write checks, in the source's order, yield exactly `WritePlan` |
| VoxelsAccessors.ReadPlan | pydvid/voxels/voxels_accessor.py:124-130 | the box `__getitem__` requests always covers all channels |
| VoxelsAccessors.WritePlan | pydvid/voxels/voxels_accessor.py:160-188 | the box `__setitem__` posts always covers all channels |
| VoxelsAccessors.WriteCoversCallerChannels | pydvid/voxels/voxels_accessor.py:171-172 | a write is accepted only if the caller's own channel item is `0:shape[0]` |
| VoxelsAccessors.NeedsRefresh | pydvid/voxels/voxels_accessor.py:72-76 | no refresh exactly when the box stops within the known shape and starts at or above `minindex` on every shared axis |
| VoxelsAccessors.RefreshOnlyBelowMinindex | pydvid/voxels/voxels_accessor.py:72-76 | after a validated post the refresh happens iff some start is below `minindex`: the `stop > shape` test can never fire |
| VoxelsAccessors.VoxelsAccessor.Open | pydvid/voxels/voxels_accessor.py:14-24 | the accessor exists iff the metadata GET answers 200 and decodes |
| VoxelsAccessors.VoxelsAccessor.GetNdarray | pydvid/voxels/voxels_accessor.py:61-65 | `voxels.get_ndarray` with the accessor's metadata |
| VoxelsAccessors.VoxelsAccessor.PostNdarray | pydvid/voxels/voxels_accessor.py:67-76 | the post, then a metadata GET iff the post succeeded and the box needs a refresh; the metadata changes only then |
| VoxelsAccessors.VoxelsAccessor.GetItem | pydvid/voxels/voxels_accessor.py:124-133 | the read plan's box is fetched; the result slicing is returned alongside |
| VoxelsAccessors.VoxelsAccessor.SetItem | pydvid/voxels/voxels_accessor.py:160-190 | a refused write sends nothing and keeps the metadata; otherwise exactly `post_ndarray` on the write plan's box: the POST, then a metadata GET exactly when the post answered 200 and the box needs a refresh, with the result and the new metadata as in `post_ndarray` |
| H5MockServers.AddVec | mockserver/h5mockserver.py:284 | `numpy.array(start) + shape`, elementwise |
| H5MockServers.RequestParams | mockserver/h5mockserver.py:94-96 | the path split on `/` with a leading empty part dropped; no part contains `/` |
| H5MockServers.ExpectedDims | mockserver/h5mockserver.py:268-269 | `range(ndims-1)` joined by `_`: empty for at most one axis, and otherwise a list that parses back to `0 .. ndims-2` |
| H5MockServers.RequestRoi | mockserver/h5mockserver.py:251-285 | success iff `api/node`, the expected dims, and two parsable lists of `ndims-1` entries; stop is start plus extent; 500 exactly when the prefix and dims pass but a list does not parse as integers, 400 for every other failure |
| H5MockServers.CreateOutcome | mockserver/h5mockserver.py:132-175 | a command other than `new` is 400, an unknown node 404, an existing target 409; past those, text that is not JSON is 400, a document `VolumeInfo` cannot derive is 500, a volume without a type name is 500, a type name other than the path's is 400, and a matching one is 204 creating `uuid/name` with the reversed shape and the dtype |
| H5MockServers.InfoOutcome | mockserver/h5mockserver.py:177-197 | 200 iff the last part is `schema`, else 400 |
| H5MockServers.GetDataOutcome | mockserver/h5mockserver.py:199-224 | 200 with the parsed box iff the ROI parses, and otherwise the ROI parser's error status |
| H5MockServers.NatExtents | mockserver/h5mockserver.py:237 | `stop - start` as array extents iff none is negative |
| H5MockServers.ModifyOutcome | mockserver/h5mockserver.py:226-249 | ROI errors pass through; for a parsed ROI with `(0, shape[-1])` prepended, a negative extent is 500, a body that does not decode as one buffer of the box is 500, and otherwise 204 writes that box |
| H5MockServers.Dispatch | mockserver/h5mockserver.py:87-130 | under 5 parts is 400; 6 parts with POST is `CreateOutcome`; otherwise a missing `uuid/name` is 404, and for an existing one 5 parts is `InfoOutcome`, 7 parts is `GetDataOutcome` (GET) or `ModifyOutcome` (POST), and any other count is 400; a success is 204 for a create or write, 200 otherwise |
| H5MockServers.H5MockServer.DoCreateVolume | mockserver/h5mockserver.py:132-175 | the outcome is `CreateOutcome`; the new dataset is added only on success, and every dataset still lies in an existing node |
| H5MockServers.H5MockServer.ExecuteRequest | mockserver/h5mockserver.py:87-130 | the outcome is `Dispatch`; only a volume creation changes the stored datasets, and every dataset still lies in an existing node |
| H5MockServers.CreatedUnderNode | mockserver/h5mockserver.py:132-150 | a volume the dispatcher creates is named `uuid/name` for a node `uuid` that exists |
| Text.SplitPartsAvoid | mockserver/h5mockserver.py:94 | no part of `path.split('/')` contains `/` |
| H5MockServers.SubvolumePathParams | mockserver/h5mockserver.py:94-96 | dvidclient's subvolume path splits into its seven parts |
| H5MockServers.RawPathParams | mockserver/h5mockserver.py:94-96 | pydvid's `/raw/` path splits into eight parts |
| H5MockServers.CreatePathParams | mockserver/h5mockserver.py:94-96 | the creation path splits into its six parts |
| H5MockServers.NodeQueryParams | mockserver/h5mockserver.py:94-96 | a `/api/node/{uuid}/{name}/{cmd}` path splits into five parts |
| H5MockServers.ClientQueryParams | mockserver/h5mockserver.py:94-96 | dvidclient's query path formats and splits into `api`, `node`, uuid, name, dims, extents and offsets |
| H5MockServers.RoiOfJoined | mockserver/h5mockserver.py:251-285 | joined extents and offsets under the expected dims parse back to the box `(offsets, offsets + extents)` |
| H5MockServers.RoiRoundTrip | mockserver/h5mockserver.py:251-285 | parsing dvidclient's path (channel first, at least two axes) gives back `start[1:]` and `stop[1:]` |
| H5MockServers.ServesClientQuery | mockserver/h5mockserver.py:199-224 | a GET of the client's path is answered 200 with exactly the requested box |
| H5MockServers.StoresClientWrite | mockserver/h5mockserver.py:226-249 | a client write of a full-channel box is stored over exactly `start`..`stop`, channels included |
| H5MockServers.ModifyStoresBox | mockserver/h5mockserver.py:226-249 | a write whose ROI parses to a box of the dataset's rank and channel count, with data of the box's shape and the dataset's dtype, is 204 and stores exactly that box |
| H5MockServers.RawUriRefused | mockserver/h5mockserver.py:87-130 | pydvid's `/raw/` URI is 400 for a known dataset and 404 otherwise |
| H5MockServers.AcceptsClientCreate | mockserver/h5mockserver.py:132-175 | the client's creation request is 204 and records the reversed shape and the dtype |
| H5MockServers.SchemaServedMetadataRefused | mockserver/h5mockserver.py:177-197 | the client's schema query is served (200); pydvid's metadata query is 400 |

## Left out

- The HTTP transport (`HTTPConnection`, `BaseHTTPServer`, `send_error`, `send_response`, headers, `Content-Length`) is left out. Each request is a `Request` value appended to a connection log, and the server's answer is a `Response` parameter.
- The `threading.Lock` around the connection is left out, because calls are modelled as sequential.
- JSON parsing and printing are left out. Documents are the `Metadata` datatype, and a decoder is a function parameter.
- `MetaInfo` is not part of this model. The mock server reads a volume description as `VolumeInfo(jsontext)` does: a JSON decoder parameter (`None` for text `json.loads` rejects, the `ValueError` answered with 400), then `FromMetadata`, whose failures are the exceptions answered with 500.
- H5MockServers.CreateOutcome: the decoder yields a `Metadata` document, so a JSON text lacking `Values`, `Axes` or one of their fields, which raises `KeyError` (500) in the source, can only be represented as a decoder failure (400).
- pydvid/voxels/voxels_metadata.py is not part of this model. `VoxelsMetadata` is a record with `shape`, `minindex`, `dtype` and `axiskeys`, and its type name uses the same four-entry table as the other metadata classes.
- pydvid's `errors.py` and `util.get_json_generic` are not part of this model. `GetMetadata` stands for them: non-200 is a `DvidHttpError`, and an undecodable body is a JSON error.
- vigra axistags are left out. The channel index is a parameter of `VolumeClient`. `decode_to_vigra_array`/`encode_from_vigra_array` are modelled by the ndarray codec.
- Floating point is opaque: resolutions are `real`, and element values are bytes.
- The mock server's h5py storage is left out. Only the box that is read or written is recorded, not the data. h5py's clipping of out-of-range reads and its errors on mismatched writes are not modelled. A created dataset is recorded as the reversed shape and the dtype.
- The mock server's traceback, logging and response-writing paths are left out. The `405` branch of `_execute_request` is not modelled: only GET and POST reach it.
- The mock server answers 500 for a volume whose only axis is the channel axis. Its dims, extents and offsets are then empty, and `int('')` raises. `RoiRoundTrip` requires at least two axes for this reason.
- NdArrays.ParseDType: only the canonical names of numpy's fixed-size numeric dtypes (`bool`, `int8`…`int64`, `uint8`…`uint64`, `float16`…`float64`, `complex64`, `complex128`) are recognised. numpy's aliases (`u1`, `i4`, `f`, `<u2` and other byte-order prefixes), platform types and flexible or structured dtypes are reported as `UnknownDType`, where `numpy.dtype` would accept them.
- Text.ParseInt: Python's `int` also accepts surrounding whitespace and a leading `+`. The model rejects both, which no formatted path produces.
- Text.Lower: `lower()`/`upper()` are modelled on ASCII letters only.
- Voxels.FormatSubvolumeRestUri: it requires `len(start) == len(stop)`. numpy would broadcast or raise on other lengths, which the model does not reproduce. Every caller validates the lengths first.
- VoxelsAccessors.NeedsRefresh: it compares only the positions that `stop`, `shape`, `start` and `minindex` have in common. numpy would raise on mismatched lengths, but after validation they agree.
- VoxelsAccessors.VoxelsAccessor.GetItem: applying the result slicing to the fetched array (numpy fancy indexing) is not modelled. `RequestResultCompose` states what it selects.
- The GUI contents browsers, `general.py` and `setup.py` are left out. They are presentation or packaging only.
