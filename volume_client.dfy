/** dvidclient's `VolumeClient`: builds the REST path of a subvolume, sends
    the request on its connection and checks and decodes the answer. Each
    method is handed the server's `Response` to the request it sends. */
module VolumeClients {
  import opened Wrappers
  import opened Text
  import opened NdArrays
  import opened Errors
  import opened Schema
  import opened Http
  import opened CodecSpec
  import opened Subvolumes
  import opened VolumeMetainfo
  import opened VolumeCodecs

  /** The first line of `ErrorResponseException.__str__`. */
  function Caption(action: string, status: int, reason: string): string
  {
    "While attempting \"" + action + "\" DVID returned an error: " + IntToDecimal(status) + ", \"" + reason + "\"\n"
  }

  /** Response bytes shown as text, one character per byte. */
  function BytesText(body: seq<byte>): (s: string)
    ensures |s| == |body|
  {
    seq(|body|, k requires 0 <= k < |body| => (body[k] as int) as char)
  }

  /** `ErrorResponseException.__str__`: the caption, followed by the server's
      body only for status 500. */
  function ErrorResponseText(action: string, status: int, reason: string, body: seq<byte>): (s: string)
    ensures |s| >= |Caption(action, status, reason)| && s[..|Caption(action, status, reason)|] == Caption(action, status, reason)
    ensures status == 500 <==> |s| > |Caption(action, status, reason)|
    ensures status == 500 ==>
              |s| == |Caption(action, status, reason)| + 22 + |body|
              && s[|Caption(action, status, reason)| + 22..] == BytesText(body)
    ensures status == 500 ==>
              s[|Caption(action, status, reason)|..|Caption(action, status, reason)| + 22] == "Server response body:\n"
  {
    var caption := Caption(action, status, reason);
    if status == 500 then caption + "Server response body:\n" + BytesText(body) else caption
  }

  /** The subvolume path template. */
  function SubvolumePath(uuid: string, dataName: string, dims: string, extents: string, offsets: string): string
  {
    "/api/node/" + uuid + "/" + dataName + "/" + dims + "/" + extents + "/" + offsets
  }

  /** `_format_subvolume_rest_query`: check the bounds, drop the channel
      entry of `start` and `stop`, then fill the path with the dims of the
      non-channel axes, the extents `stop - start` and the offsets `start`. */
  function FormatSubvolumeRestQuery(uuid: string, dataName: string, shape: seq<int>, channelIndex: int,
                                    start: seq<int>, stop: seq<int>): (r: Result<string, Error>)
    ensures r.Success? <==> ValidBounds(shape, start, stop) && -|shape| <= channelIndex < |shape|
    ensures !ValidBounds(shape, start, stop) ==> r == Failure(InvalidBounds)
    ensures r.Success? ==>
              var c := NormalIndex(channelIndex, |shape|);
              r.value == SubvolumePath(uuid, dataName, Dims(|shape| - 1),
                                       JoinInts(Extents(RemoveAt(start, c), RemoveAt(stop, c))),
                                       JoinInts(RemoveAt(start, c)))
  {
    if !ValidBounds(shape, start, stop) then Failure(InvalidBounds)
    else if !(-|start| <= channelIndex < |start|) then Failure(ChannelIndexOutOfRange)
    else
      var c := NormalIndex(channelIndex, |start|);
      var offsets := RemoveAt(start, c);
      var ends := RemoveAt(stop, c);
      Success(SubvolumePath(uuid, dataName, Dims(|shape| - 1), JoinInts(Extents(offsets, ends)), JoinInts(offsets)))
  }

  /** The cutout of the client test: a five-axis volume with the channel
      first, `start = (0,50,5,9,0)`, `stop = (3,150,20,10,4)`. */
  lemma CutoutExampleQuery(uuid: string, dataName: string)
    ensures FormatSubvolumeRestQuery(uuid, dataName, [3, 200, 100, 10, 4], 0, [0, 50, 5, 9, 0], [3, 150, 20, 10, 4])
         == Success(SubvolumePath(uuid, dataName, "0_1_2_3", "100_15_1_4", "50_5_9_0"))
  {
    var shape, start, stop := [3, 200, 100, 10, 4], [0, 50, 5, 9, 0], [3, 150, 20, 10, 4];
    assert ValidBounds(shape, start, stop);
    assert RemoveAt(start, 0) == [50, 5, 9, 0];
    assert Extents(RemoveAt(start, 0), RemoveAt(stop, 0)) == [100, 15, 1, 4];
    assert Range(4) == [0, 1, 2, 3];
    ExampleDims();
    ExampleExtents();
    ExampleOffsets();
  }

  lemma ExampleDims()
    ensures JoinInts([0, 1, 2, 3]) == "0_1_2_3"
  {
    JoinIntsTail4(0, 1, 2, 3);
  }

  lemma ExampleExtents()
    ensures JoinInts([100, 15, 1, 4]) == "100_15_1_4"
  {
    assert NatToDecimal(10) == "10";
    assert IntToDecimal(100) == "100";
    assert IntToDecimal(15) == "15";
    JoinIntsTail4(100, 15, 1, 4);
    assert "100" + "_" + ("15" + "_" + ("1" + "_" + "4")) == "100_15_1_4";
  }

  lemma ExampleOffsets()
    ensures JoinInts([50, 5, 9, 0]) == "50_5_9_0"
  {
    assert IntToDecimal(50) == "50";
    JoinIntsTail4(50, 5, 9, 0);
  }

  lemma JoinIntsTail4(a: int, b: int, c: int, d: int)
    ensures JoinInts([a, b, c, d])
         == IntToDecimal(a) + "_" + (IntToDecimal(b) + "_" + (IntToDecimal(c) + "_" + IntToDecimal(d)))
  {
    assert Decimals([d]) == [IntToDecimal(d)];
    JoinIntsCons(c, [d]);
    assert [c] + [d] == [c, d];
    var cd := IntToDecimal(c) + "_" + IntToDecimal(d);
    assert JoinInts([c, d]) == cd;
    JoinIntsCons(b, [c, d]);
    assert [b] + [c, d] == [b, c, d];
    var bcd := IntToDecimal(b) + "_" + cd;
    assert JoinInts([b, c, d]) == bcd;
    JoinIntsCons(a, [b, c, d]);
    assert [a] + [b, c, d] == [a, b, c, d];
  }

  /** The shape the response is decoded with: `stop - start`, with the
      channel extent replaced by the volume's full channel count. */
  function FullRoiShape(shape: seq<int>, start: seq<int>, stop: seq<int>): (r: seq<nat>)
    requires ValidBounds(shape, start, stop) && |shape| >= 1
    ensures |r| == |shape| && r[0] == shape[0] && r[1..] == RoiShape(start, stop)[1..]
  {
    RoiShape(start, stop)[0 := shape[0]]
  }

  /** What `retrieve_subvolume` makes of the server's answer to a valid
      request: status 200, a body of exactly one buffer of the full-channel
      box, and then only channels `start[0]..stop[0]`. */
  function RetrievedArray(info: VolumeInfo, start: seq<int>, stop: seq<int>, response: Response): (r: Result<NdArray, Error>)
    requires ValidBounds(info.shape, start, stop) && |info.shape| >= 1
    ensures r.Success? <==>
              response.status == 200
              && |response.body| == BufferLen(FullRoiShape(info.shape, start, stop), info.dtype)
    ensures response.status != 200 ==>
              r == Failure(ErrorResponse("subvolume query", response.status, response.reason, response.body))
    ensures r.Success? ==> Valid(r.value) && r.value.shape == RoiShape(start, stop) && r.value.dtype == info.dtype
  {
    if response.status != 200 then
      Failure(ErrorResponse("subvolume query", response.status, response.reason, response.body))
    else
      var full := FullRoiShape(info.shape, start, stop);
      match Decoded(full, info.dtype, response.body)
      case Failure(e) => Failure(e)
      case Success(a) =>
        var n := BufferLen(full, info.dtype);
        if |response.body| > n then Failure(ExcessData(|response.body| - n))
        else
          assert RoiShape(start, stop) == [stop[0] - start[0]] + full[1..];
          Success(SliceChannels(a, start[0], stop[0]))
  }

  /** Channel c of the returned array is channel `start[0] + c` of the decoded
      full-channel box, at every other position. */
  lemma RetrievedElements(info: VolumeInfo, start: seq<int>, stop: seq<int>, response: Response, idx: seq<nat>)
    requires ValidBounds(info.shape, start, stop) && |info.shape| >= 1
    requires RetrievedArray(info, start, stop, response).Success?
    requires InBounds(RoiShape(start, stop), idx)
    ensures var full := FullRoiShape(info.shape, start, stop);
      var decoded := FromFortran(full, info.dtype, response.body);
      InBounds(full, ShiftAxis0(idx, start[0]))
      && Element(RetrievedArray(info, start, stop, response).value, idx) == Element(decoded, ShiftAxis0(idx, start[0]))
  {
    var full := FullRoiShape(info.shape, start, stop);
    var decoded := FromFortran(full, info.dtype, response.body);
    assert response.body[..BufferLen(full, info.dtype)] == response.body;
    assert RoiShape(start, stop) == [stop[0] - start[0]] + full[1..];
    SliceChannelsElement(decoded, start[0], stop[0], idx);
  }

  /** The checks `modify_subvolume` makes before building the request: the
      write must cover every channel, then the path formatter's own. */
  function ModifyQuery(uuid: string, dataName: string, info: VolumeInfo, channelIndex: int,
                       start: seq<int>, stop: seq<int>): (r: Result<string, Error>)
    ensures r.Success? ==>
              |info.shape| >= 1 && ValidBounds(info.shape, start, stop)
              && start[0] == 0 && stop[0] == info.shape[0]
              && r == FormatSubvolumeRestQuery(uuid, dataName, info.shape, channelIndex, start, stop)
    ensures |start| >= 1 && |stop| >= 1 && |info.shape| >= 1 && (start[0] != 0 || stop[0] != info.shape[0])
            ==> r == Failure(PartialChannels)
    ensures FullChannelCheck(start, stop, info.shape).Success? ==>
              r == FormatSubvolumeRestQuery(uuid, dataName, info.shape, channelIndex, start, stop)
  {
    var channels := FullChannelCheck(start, stop, info.shape);
    if channels.Failure? then Failure(channels.error)
    else FormatSubvolumeRestQuery(uuid, dataName, info.shape, channelIndex, start, stop)
  }

  /** The path of the schema query `__init__` issues. */
  function SchemaPath(uuid: string, dataName: string): string
  {
    "/api/node/" + uuid + "/" + dataName + "/schema"
  }

  /** `create_volume`: POST the metadata to the creation path of its type
      name; only an empty 204 answer is success. No request is sent if the
      volume has no DVID type name. */
  method CreateVolume(connection: Connection, uuid: string, dataName: string, info: VolumeInfo, response: Response)
    returns (r: Result<(), Error>)
    modifies connection
    ensures DetermineDvidTypename(info).Failure? ==>
              r == Failure(DetermineDvidTypename(info).error) && connection.sent == old(connection.sent)
    ensures DetermineDvidTypename(info).Success? ==>
              connection.sent == old(connection.sent)
                + [Request(POST, CreateVolumePath(uuid, DetermineDvidTypename(info).value, dataName),
                           "text/json", JsonDocument(info.metadata))]
    ensures DetermineDvidTypename(info).Success? && response.status != 204 ==>
              r == Failure(ErrorResponse("create new data", response.status, response.reason, response.body))
    ensures DetermineDvidTypename(info).Success? && response.status == 204 ==>
              r == if |response.body| > 0 then Failure(UnexpectedBody(response.body)) else Success(())
  {
    var typename := DetermineDvidTypename(info);
    if typename.Failure? {
      return Failure(typename.error);
    }
    connection.Send(Request(POST, CreateVolumePath(uuid, typename.value, dataName), "text/json", JsonDocument(info.metadata)));
    if response.status != 204 {
      return Failure(ErrorResponse("create new data", response.status, response.reason, response.body));
    }
    var stream := new InputStream(response.body);
    var text := stream.ReadAll();
    if |text| > 0 {
      return Failure(UnexpectedBody(text));
    }
    r := Success(());
  }

  /** `query_datasets_info`: GET `/api/datasets/info`, require 200 and hand
      the body to the JSON decoder `parse`. */
  method QueryDatasetsInfo<D>(connection: Connection, response: Response, parse: seq<byte> -> Option<D>)
    returns (r: Result<D, Error>)
    modifies connection
    ensures connection.sent == old(connection.sent) + [Request(GET, "/api/datasets/info", "", NoBody)]
    ensures response.status != 200 ==>
              r == Failure(ErrorResponse("query datasets info", response.status, response.reason, response.body))
    ensures response.status == 200 ==>
              r == match parse(response.body) case Some(d) => Success(d) case None => Failure(JsonParseError)
  {
    connection.Send(Request(GET, "/api/datasets/info", "", NoBody));
    if response.status != 200 {
      return Failure(ErrorResponse("query datasets info", response.status, response.reason, response.body));
    }
    var stream := new InputStream(response.body);
    var text := stream.ReadAll();
    var parsed := parse(text);
    if parsed.None? {
      return Failure(JsonParseError);
    }
    r := Success(parsed.value);
  }

  class VolumeClient {
    const uuid: string
    const dataName: string
    const info: VolumeInfo
    /** The position of the channel axis (`axistags.channelIndex`). */
    const channelIndex: int
    const connection: Connection
    const codec: VolumeCodec

    ghost predicate Valid()
    {
      codec.info == info
    }

    constructor FromInfo(connection: Connection, uuid: string, dataName: string, info: VolumeInfo, channelIndex: int)
      ensures Valid() && fresh(codec)
      ensures this.connection == connection && this.uuid == uuid && this.dataName == dataName
      ensures this.info == info && this.channelIndex == channelIndex
    {
      this.uuid := uuid;
      this.dataName := dataName;
      this.info := info;
      this.channelIndex := channelIndex;
      this.connection := connection;
      codec := new VolumeCodec(info);
    }

    /** `__init__`: GET the schema; anything but 200 is an error; the body
        is handed to the metadata decoder `parse`. */
    static method Open(connection: Connection, uuid: string, dataName: string, channelIndex: int,
                       response: Response, parse: seq<byte> -> Option<VolumeInfo>)
      returns (r: Result<VolumeClient, Error>)
      modifies connection
      ensures connection.sent == old(connection.sent) + [Request(GET, SchemaPath(uuid, dataName), "", NoBody)]
      ensures response.status != 200 ==>
                r == Failure(ErrorResponse("metainfo query", response.status, response.reason, response.body))
      ensures response.status == 200 && parse(response.body).None? ==> r == Failure(JsonParseError)
      ensures r.Success? <==> response.status == 200 && parse(response.body).Some?
      ensures r.Success? ==>
                fresh(r.value) && r.value.Valid() && r.value.info == parse(response.body).value
                && r.value.connection == connection && r.value.uuid == uuid && r.value.dataName == dataName
                && r.value.channelIndex == channelIndex
    {
      connection.Send(Request(GET, SchemaPath(uuid, dataName), "", NoBody));
      if response.status != 200 {
        return Failure(ErrorResponse("metainfo query", response.status, response.reason, response.body));
      }
      var parsed := parse(response.body);
      if parsed.None? {
        return Failure(JsonParseError);
      }
      var client := new VolumeClient.FromInfo(connection, uuid, dataName, parsed.value, channelIndex);
      r := Success(client);
    }

    /** `retrieve_subvolume`: an invalid request fails before anything is
        sent; otherwise one GET goes out and the answer is judged by
        `RetrievedArray`. */
    method RetrieveSubvolume(start: seq<int>, stop: seq<int>, response: Response) returns (r: Result<NdArray, Error>)
      requires Valid()
      modifies connection
      ensures var q := FormatSubvolumeRestQuery(uuid, dataName, info.shape, channelIndex, start, stop);
        (q.Failure? ==> r == Failure(q.error) && connection.sent == old(connection.sent))
        && (q.Success? ==>
              |info.shape| >= 1
              && connection.sent == old(connection.sent) + [Request(GET, q.value, "", NoBody)]
              && r == RetrievedArray(info, start, stop, response))
    {
      var query := FormatSubvolumeRestQuery(uuid, dataName, info.shape, channelIndex, start, stop);
      if query.Failure? {
        return Failure(query.error);
      }
      connection.Send(Request(GET, query.value, "", NoBody));
      if response.status != 200 {
        return Failure(ErrorResponse("subvolume query", response.status, response.reason, response.body));
      }
      var fullRoiShape := FullRoiShape(info.shape, start, stop);
      var stream := new InputStream(response.body);
      var decoded := codec.DecodeToNdarray(stream, fullRoiShape);
      if decoded.Failure? {
        return Failure(decoded.error);
      }
      var excess := stream.ReadAll();
      if |excess| > 0 {
        return Failure(ExcessData(|excess|));
      }
      assert response.body[..BufferLen(fullRoiShape, info.dtype)] == response.body;
      r := Success(SliceChannels(decoded.value, start[0], stop[0]));
    }

    /** `modify_subvolume`: the channel checks and the path formatter run
        first, then the encoder; only then is the POST sent, carrying the
        array's Fortran-order bytes. Only status 204 is success. */
    method ModifySubvolume(start: seq<int>, stop: seq<int>, newData: NdArray, response: Response)
      returns (r: Result<(), Error>)
      requires Valid() && NdArrays.Valid(newData)
      modifies connection
      ensures var q := ModifyQuery(uuid, dataName, info, channelIndex, start, stop);
        (q.Failure? ==> r == Failure(q.error) && connection.sent == old(connection.sent))
        && (q.Success? && newData.dtype != info.dtype ==>
              r == Failure(WrongDType) && connection.sent == old(connection.sent))
        && (q.Success? && newData.dtype == info.dtype ==>
              connection.sent == old(connection.sent)
                + [Request(POST, q.value, VOLUME_MIMETYPE, Raw(FortranBytes(newData)))]
              && r == if response.status == 204 then Success(())
                      else Failure(ErrorResponse("subvolume post", response.status, response.reason, response.body)))
    {
      var query := ModifyQuery(uuid, dataName, info, channelIndex, start, stop);
      if query.Failure? {
        return Failure(query.error);
      }
      var body := new OutputStream();
      var encoded := codec.EncodeFromNdarray(body, newData);
      if encoded.Failure? {
        return Failure(encoded.error);
      }
      assert body.Value() == FortranBytes(newData);
      connection.Send(Request(POST, query.value, VOLUME_MIMETYPE, Raw(body.Value())));
      if response.status != 204 {
        return Failure(ErrorResponse("subvolume post", response.status, response.reason, response.body));
      }
      r := Success(());
    }
  }
}
