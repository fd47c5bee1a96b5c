/** pydvid's `voxels` functions: the newer generation of the subvolume
    client. Requests carry a `/raw/` segment and an optional format suffix,
    every request must cover all channels, and success is status 200. Each
    method is handed the server's `Response` to the request it sends. */
module Voxels {
  import opened Wrappers
  import opened Text
  import opened NdArrays
  import opened Errors
  import opened Schema
  import opened Http
  import opened CodecSpec
  import opened Subvolumes
  import opened VoxelsNddataCodecs
  import opened VolumeClients

  /** What the voxels functions read of a `VoxelsMetadata`: the volume's
      shape (channel axis first), the lower corner of its bounding box, its
      dtype and axis keys, and the document sent on creation. */
  datatype VoxelsMetadata = VoxelsMetadata(shape: seq<int>, minindex: seq<int>, dtype: DType,
                                           axiskeys: string, document: Metadata)

  /** `_validate_query_bounds`: the request covers all channels, then the
      five assertions of the path formatters. */
  function ValidateQueryBounds(start: seq<int>, stop: seq<int>, shape: seq<int>): (r: Result<(), Error>)
    ensures r.Success? <==>
              |shape| >= 1 && ValidBounds(shape, start, stop) && start[0] == 0 && stop[0] == shape[0]
    ensures FullChannelCheck(start, stop, shape).Failure? ==> r == FullChannelCheck(start, stop, shape)
    ensures FullChannelCheck(start, stop, shape).Success? && !ValidBounds(shape, start, stop)
            ==> r == Failure(InvalidBounds)
  {
    var channels := FullChannelCheck(start, stop, shape);
    if channels.Failure? then channels
    else if !ValidBounds(shape, start, stop) then Failure(InvalidBounds)
    else Success(())
  }

  /** The pydvid subvolume path template, with its `/raw/` segment. */
  function RawPath(uuid: string, dataName: string, dims: string, extents: string, offsets: string): string
  {
    "/api/node/" + uuid + "/" + dataName + "/raw/" + dims + "/" + extents + "/" + offsets
  }

  /** `start[1:]`: every axis but the channel axis (nothing for an empty vector). */
  function DropChannel(s: seq<int>): (r: seq<int>)
    ensures |s| >= 1 ==> r == s[1..]
    ensures |s| == 0 ==> r == []
  {
    if |s| == 0 then [] else s[1..]
  }

  /** `_format_subvolume_rest_uri`: axis 0 is always dropped, whatever the
      metadata says; dims counts the remaining axes, extents are `stop - start`
      and offsets `start` over them; `/format` is appended iff the format is
      not empty. */
  function FormatSubvolumeRestUri(uuid: string, dataName: string, start: seq<int>, stop: seq<int>, format: string)
    : (r: string)
    requires |start| == |stop|
    ensures var path := RawPath(uuid, dataName, Dims(|DropChannel(start)|),
                                JoinInts(Extents(DropChannel(start), DropChannel(stop))),
                                JoinInts(DropChannel(start)));
      r == if format == "" then path else path + "/" + format
  {
    var offsets := DropChannel(start);
    var ends := DropChannel(stop);
    var path := RawPath(uuid, dataName, Dims(|offsets|), JoinInts(Extents(offsets, ends)), JoinInts(offsets));
    if format != "" then path + "/" + format else path
  }

  /** The two path generations agree: for a valid request with the channel
      first, pydvid's URI is dvidclient's path with `/raw` inserted after the
      data name, and both end in the same dims, extents and offsets. */
  lemma RawUriExtendsQuery(uuid: string, dataName: string, shape: seq<int>, start: seq<int>, stop: seq<int>)
    requires ValidBounds(shape, start, stop) && |shape| >= 1
    ensures var prefix := "/api/node/" + uuid + "/" + dataName;
      var tail := "/" + Dims(|shape| - 1) + "/" + JoinInts(Extents(start[1..], stop[1..])) + "/" + JoinInts(start[1..]);
      FormatSubvolumeRestQuery(uuid, dataName, shape, 0, start, stop) == Success(prefix + tail)
      && FormatSubvolumeRestUri(uuid, dataName, start, stop, "") == prefix + "/raw" + tail
  {
    var dims := Dims(|shape| - 1);
    var extents := JoinInts(Extents(start[1..], stop[1..]));
    var offsets := JoinInts(start[1..]);
    RemoveFirstKeepsBounds(shape, start, stop);
    assert FormatSubvolumeRestQuery(uuid, dataName, shape, 0, start, stop)
        == Success(SubvolumePath(uuid, dataName, dims, extents, offsets));
    PathTails(uuid, dataName, dims, extents, offsets);
  }

  /** Both templates, split after the data name. */
  lemma PathTails(uuid: string, dataName: string, dims: string, extents: string, offsets: string)
    ensures var prefix := "/api/node/" + uuid + "/" + dataName;
      var tail := "/" + dims + "/" + extents + "/" + offsets;
      SubvolumePath(uuid, dataName, dims, extents, offsets) == prefix + tail
      && RawPath(uuid, dataName, dims, extents, offsets) == prefix + "/raw" + tail
  {
  }

  /** The path `get_metadata` queries. */
  function MetadataPath(uuid: string, dataName: string): string
  {
    "/api/node/" + uuid + "/" + dataName + "/metadata"
  }

  /** What `get_ndarray` makes of the server's answer to a validated request:
      status 200 and a body of exactly one buffer of the requested box, which
      covers every channel; the whole decoded box is returned. */
  function FetchedNdarray(dtype: DType, start: seq<int>, stop: seq<int>, uri: string, response: Response)
    : (r: Result<NdArray, Error>)
    requires |start| == |stop| && forall k :: 0 <= k < |start| ==> start[k] < stop[k]
    ensures r.Success? <==> response.status == 200 && |response.body| == BufferLen(RoiShape(start, stop), dtype)
    ensures response.status != 200 ==>
              r == Failure(DvidHttpError("subvolume query", response.status, response.reason, response.body, "GET", uri))
    ensures response.status == 200 && |response.body| < BufferLen(RoiShape(start, stop), dtype) ==> r == Failure(ShortRead)
    ensures response.status == 200 && |response.body| > BufferLen(RoiShape(start, stop), dtype) ==>
              r == Failure(ExcessData(|response.body| - BufferLen(RoiShape(start, stop), dtype)))
    ensures r.Success? ==>
              Valid(r.value) && r.value.shape == RoiShape(start, stop) && r.value.dtype == dtype
              && r.value.order == F && FortranBytes(r.value) == response.body
  {
    if response.status != 200 then
      Failure(DvidHttpError("subvolume query", response.status, response.reason, response.body, "GET", uri))
    else
      var full := RoiShape(start, stop);
      match Decoded(full, dtype, response.body)
      case Failure(e) => Failure(e)
      case Success(a) =>
        var n := BufferLen(full, dtype);
        if |response.body| > n then Failure(ExcessData(|response.body| - n))
        else
          assert response.body[..n] == response.body;
          Success(a)
  }

  /** `get_metadata`: GET the metadata document; anything but 200 is an
      error; the body is handed to the metadata decoder `parse`. */
  method GetMetadata(connection: Connection, uuid: string, dataName: string, response: Response,
                     parse: seq<byte> -> Option<VoxelsMetadata>)
    returns (r: Result<VoxelsMetadata, Error>)
    modifies connection
    ensures connection.sent == old(connection.sent) + [Request(GET, MetadataPath(uuid, dataName), "", NoBody)]
    ensures response.status != 200 ==>
              r == Failure(DvidHttpError("requesting json for: " + MetadataPath(uuid, dataName), response.status,
                                         response.reason, response.body, "GET", MetadataPath(uuid, dataName)))
    ensures response.status == 200 ==>
              r == match parse(response.body) case Some(md) => Success(md) case None => Failure(JsonParseError)
  {
    var path := MetadataPath(uuid, dataName);
    connection.Send(Request(GET, path, "", NoBody));
    if response.status != 200 {
      return Failure(DvidHttpError("requesting json for: " + path, response.status, response.reason, response.body,
                                   "GET", path));
    }
    var stream := new InputStream(response.body);
    var text := stream.ReadAll();
    var parsed := parse(text);
    if parsed.None? {
      return Failure(JsonParseError);
    }
    r := Success(parsed.value);
  }

  /** `create_new`: POST the metadata document to the creation path of the
      volume's type name; only status 200 with an empty body is success. No
      request is sent if the volume has no type name. */
  method CreateNew(connection: Connection, uuid: string, dataName: string, md: VoxelsMetadata, response: Response)
    returns (r: Result<(), Error>)
    modifies connection
    ensures ShapeTypename(md.dtype, md.shape).Failure? ==>
              r == Failure(ShapeTypename(md.dtype, md.shape).error) && connection.sent == old(connection.sent)
    ensures ShapeTypename(md.dtype, md.shape).Success? ==>
              var path := CreateVolumePath(uuid, ShapeTypename(md.dtype, md.shape).value, dataName);
              connection.sent == old(connection.sent) + [Request(POST, path, "text/json", JsonDocument(md.document))]
              && r == if response.status != 200
                      then Failure(DvidHttpError("voxels.new", response.status, response.reason, response.body, "POST", path))
                      else if |response.body| > 0 then Failure(UnexpectedBody(response.body))
                      else Success(())
  {
    var typename := ShapeTypename(md.dtype, md.shape);
    if typename.Failure? {
      return Failure(typename.error);
    }
    var path := CreateVolumePath(uuid, typename.value, dataName);
    connection.Send(Request(POST, path, "text/json", JsonDocument(md.document)));
    if response.status != 200 {
      return Failure(DvidHttpError("voxels.new", response.status, response.reason, response.body, "POST", path));
    }
    var stream := new InputStream(response.body);
    var text := stream.ReadAll();
    if |text| > 0 {
      return Failure(UnexpectedBody(text));
    }
    r := Success(());
  }

  /** `get_subvolume_response`: one GET of the subvolume URI; anything but
      200 is an error, otherwise the response is handed back to be read. */
  method GetSubvolumeResponse(connection: Connection, uuid: string, dataName: string, start: seq<int>, stop: seq<int>,
                              format: string, response: Response)
    returns (r: Result<Response, Error>)
    requires |start| == |stop|
    modifies connection
    ensures var uri := FormatSubvolumeRestUri(uuid, dataName, start, stop, format);
      connection.sent == old(connection.sent) + [Request(GET, uri, "", NoBody)]
      && r == if response.status == 200 then Success(response)
              else Failure(DvidHttpError("subvolume query", response.status, response.reason, response.body, "GET", uri))
  {
    var uri := FormatSubvolumeRestUri(uuid, dataName, start, stop, format);
    connection.Send(Request(GET, uri, "", NoBody));
    if response.status != 200 {
      return Failure(DvidHttpError("subvolume query", response.status, response.reason, response.body, "GET", uri));
    }
    r := Success(response);
  }

  /** `get_ndarray`: the bounds are validated before any request; the
      response is decoded with the channel extent forced to the volume's
      channel count, and bytes left over are an error. */
  method GetNdarray(connection: Connection, uuid: string, dataName: string, md: VoxelsMetadata,
                    start: seq<int>, stop: seq<int>, response: Response)
    returns (r: Result<NdArray, Error>)
    modifies connection
    ensures var v := ValidateQueryBounds(start, stop, md.shape);
      (v.Failure? ==> r == Failure(v.error) && connection.sent == old(connection.sent))
      && (v.Success? ==>
            var uri := FormatSubvolumeRestUri(uuid, dataName, start, stop, "");
            connection.sent == old(connection.sent) + [Request(GET, uri, "", NoBody)]
            && r == FetchedNdarray(md.dtype, start, stop, uri, response))
  {
    var valid := ValidateQueryBounds(start, stop, md.shape);
    if valid.Failure? {
      return Failure(valid.error);
    }
    var answer := GetSubvolumeResponse(connection, uuid, dataName, start, stop, "", response);
    if answer.Failure? {
      return Failure(answer.error);
    }
    r := ReadNdarray(md, start, stop, FormatSubvolumeRestUri(uuid, dataName, start, stop, ""), answer.value);
  }

  /** The `with` block of `get_ndarray`: decode one buffer of the box with
      the channel extent forced to the volume's channel count, then read on
      to the end; bytes left over are an error. */
  method ReadNdarray(md: VoxelsMetadata, start: seq<int>, stop: seq<int>, uri: string, response: Response)
    returns (r: Result<NdArray, Error>)
    requires ValidateQueryBounds(start, stop, md.shape).Success? && response.status == 200
    ensures r == FetchedNdarray(md.dtype, start, stop, uri, response)
  {
    ghost var expected := FetchedNdarray(md.dtype, start, stop, uri, response);
    var codec := new VoxelsNddataCodec(md.dtype);
    var fullRoiShape := RoiShape(start, stop)[0 := md.shape[0]];
    assert fullRoiShape == RoiShape(start, stop);
    ghost var n := BufferLen(fullRoiShape, md.dtype);
    var stream := new InputStream(response.body);
    var decoded := codec.DecodeToNdarray(stream, fullRoiShape);
    if decoded.Failure? {
      assert |response.body| < n && expected == Failure(ShortRead);
      return Failure(decoded.error);
    }
    var excess := stream.ReadAll();
    if |excess| > 0 {
      assert |response.body| > n && expected == Failure(ExcessData(|excess|));
      return Failure(ExcessData(|excess|));
    }
    assert response.body[..n] == response.body;
    r := Success(decoded.value);
  }

  /** The POST `post_ndarray` sends, or the error raised before it: the
      bounds are validated, then the encoder rejects a foreign dtype; the
      body is the array's Fortran-order bytes. */
  function PostRequest(uuid: string, dataName: string, md: VoxelsMetadata, start: seq<int>, stop: seq<int>,
                       newData: NdArray): (r: Result<Request, Error>)
    requires Valid(newData)
    ensures ValidateQueryBounds(start, stop, md.shape).Failure? ==> r == Failure(ValidateQueryBounds(start, stop, md.shape).error)
    ensures ValidateQueryBounds(start, stop, md.shape).Success? && newData.dtype != md.dtype ==> r == Failure(WrongDType)
    ensures r.Success? <==> ValidateQueryBounds(start, stop, md.shape).Success? && newData.dtype == md.dtype
    ensures r.Success? ==>
              r.value.verb == POST && r.value.contentType == VOLUME_MIMETYPE
              && r.value.body == Raw(FortranBytes(newData))
              && |FortranBytes(newData)| == BufferLen(newData.shape, md.dtype)
              && r.value.path == FormatSubvolumeRestUri(uuid, dataName, start, stop, "")
  {
    var valid := ValidateQueryBounds(start, stop, md.shape);
    if valid.Failure? then Failure(valid.error)
    else if newData.dtype != md.dtype then Failure(WrongDType)
    else Success(Request(POST, FormatSubvolumeRestUri(uuid, dataName, start, stop, ""), VOLUME_MIMETYPE,
                         Raw(FortranBytes(newData))))
  }

  /** `post_ndarray`'s verdict on the server's answer: only 200 is success. */
  function PostAnswer(request: Request, response: Response): (r: Result<(), Error>)
    ensures r.Success? <==> response.status == 200
    ensures r.Failure? ==>
              r.error == DvidHttpError("subvolume post", response.status, response.reason, response.body, "POST",
                                       request.path)
  {
    if response.status == 200 then Success(())
    else Failure(DvidHttpError("subvolume post", response.status, response.reason, response.body, "POST", request.path))
  }

  /** `post_ndarray`: the bounds are validated and the array encoded before
      the POST is sent; on success the response body is drained. */
  method PostNdarray(connection: Connection, uuid: string, dataName: string, md: VoxelsMetadata,
                     start: seq<int>, stop: seq<int>, newData: NdArray, response: Response)
    returns (r: Result<(), Error>)
    requires Valid(newData)
    modifies connection
    ensures var q := PostRequest(uuid, dataName, md, start, stop, newData);
      (q.Failure? ==> r == Failure(q.error) && connection.sent == old(connection.sent))
      && (q.Success? ==> connection.sent == old(connection.sent) + [q.value] && r == PostAnswer(q.value, response))
  {
    var valid := ValidateQueryBounds(start, stop, md.shape);
    if valid.Failure? {
      return Failure(valid.error);
    }
    var codec := new VoxelsNddataCodec(md.dtype);
    var uri := FormatSubvolumeRestUri(uuid, dataName, start, stop, "");
    var body := new OutputStream();
    var encoded := codec.EncodeFromNdarray(body, newData);
    if encoded.Failure? {
      return Failure(encoded.error);
    }
    assert body.Value() == FortranBytes(newData);
    connection.Send(Request(POST, uri, VOLUME_MIMETYPE, Raw(body.Value())));
    if response.status != 200 {
      return Failure(DvidHttpError("subvolume post", response.status, response.reason, response.body, "POST", uri));
    }
    var stream := new InputStream(response.body);
    var drained := stream.ReadAll();
    r := Success(());
  }
}
