/** The mock DVID server's request handling: the request path is split on
    `/`, dispatched on its number of parts and on the verb, and a subvolume
    path is parsed back into the box it names. The server holds its
    datasets in C order (channel axis last), keyed by `uuid/data_name`.
    Exceptions other than the handler's own request errors end in status
    500. */
module H5MockServers {
  import opened Wrappers
  import opened Text
  import opened NdArrays
  import opened Http
  import opened CodecSpec
  import opened Subvolumes
  import opened Schema
  import opened VolumeMetainfo
  import opened VolumeClients
  import opened Voxels

  /** A stored dataset: its C-order shape and its element type. */
  datatype Dataset = Dataset(shape: seq<int>, dtype: DType)

  /** What a successful request did. */
  datatype Action =
    | VolumeCreated(path: string, dataset: Dataset)
    | InfoServed(path: string)
    | DataServed(path: string, start: seq<int>, stop: seq<int>)
    | DataModified(path: string, start: seq<int>, stop: seq<int>)

  /** The handler's verdict: an error status, or a status and what was done. */
  datatype Outcome = Refused(status: int) | Done(status: int, action: Action)

  /** `self.path.split('/')` without its leading empty part. */
  function RequestParams(path: string): (r: seq<string>)
    ensures forall k :: 0 <= k < |r| ==> '/' !in r[k]
    ensures path == "" ==> r == []
    ensures |path| >= 1 && path[0] == '/' ==> r == Split(path[1..], '/')
    ensures |path| >= 1 && path[0] != '/' ==> r == Split(path, '/')
  {
    var parts := Split(path, '/');
    SplitPartsAvoid(path, '/');
    if parts[0] == "" then parts[1..] else parts
  }

  /** `a + b` elementwise. */
  function AddVec(a: seq<int>, b: seq<int>): (r: seq<int>)
    requires |a| == |b|
    ensures |r| == |a| && forall k :: 0 <= k < |a| ==> r[k] == a[k] + b[k]
  {
    seq(|a|, k requires 0 <= k < |a| => a[k] + b[k])
  }

  /** The dims every query must name: all axes but the channel axis,
      `range(ndims - 1)` (empty when that is negative). */
  function ExpectedDims(ndims: nat): (r: string)
    ensures ndims <= 1 ==> r == ""
    ensures ndims >= 2 ==> ParseInts(r) == Some(Range(ndims - 1))
  {
    if ndims == 0 then Dims(0)
    else if ndims == 1 then Dims(0)
    else ParseIntsOfJoinInts(Range(ndims - 1)); Dims(ndims - 1)
  }

  /** `_determine_request_roi`: `api/node`, the dims of all non-channel axes,
      then start and extent as `_`-separated integers of exactly `ndims - 1`
      entries each; the stop is start plus extent. A malformed integer is an
      uncaught `ValueError` (500), the other checks answer 400. */
  function RequestRoi(params: seq<string>, ndims: nat): (r: Result<(seq<int>, seq<int>), int>)
    requires |params| == 7
    ensures r.Failure? ==> r.error == 400 || r.error == 500
    ensures r == Failure(500) <==>
              params[0] == "api" && params[1] == "node" && params[4] == ExpectedDims(ndims)
              && (ParseInts(params[6]).None? || ParseInts(params[5]).None?)
    ensures r.Success? <==>
              params[0] == "api" && params[1] == "node" && params[4] == ExpectedDims(ndims)
              && ParseInts(params[6]).Some? && ParseInts(params[5]).Some?
              && |ParseInts(params[6]).value| == |ParseInts(params[5]).value| == ndims - 1
    ensures r.Success? ==>
              |r.value.0| == |r.value.1| == ndims - 1 >= 1
              && r.value.0 == ParseInts(params[6]).value
              && r.value.1 == AddVec(r.value.0, ParseInts(params[5]).value)
  {
    if params[0] != "api" || params[1] != "node" then Failure(400)
    else if params[4] != ExpectedDims(ndims) then Failure(400)
    else
      match (ParseInts(params[6]), ParseInts(params[5]))
      case (Some(start), Some(extent)) =>
        if |start| != ndims - 1 then Failure(400)
        else if |extent| != ndims - 1 then Failure(400)
        else
          assert |start| >= 1 by { SplitParseLength(params[6]); }
          Success((start, AddVec(start, extent)))
      case _ => Failure(500)
  }

  /** A parsed coordinate list is never empty: splitting yields a part. */
  lemma SplitParseLength(s: string)
    requires ParseInts(s).Some?
    ensures |ParseInts(s).value| >= 1
  {
    var parts := Split(s, '_');
    assert ParseAll(parts).Some?;
    ParseAllLength(parts);
  }

  lemma {:induction false} ParseAllLength(parts: seq<string>)
    requires ParseAll(parts).Some?
    ensures |ParseAll(parts).value| == |parts|
  {
    if |parts| > 0 {
      ParseAllLength(parts[1..]);
    }
  }

  /** `_do_create_volume`, as a value: the `new` keyword, an existing node,
      a free name, a readable description and a matching type name; the new
      dataset is the C-order reverse of the described volume. The
      description is read as `VolumeInfo(jsontext)` does: text that is not
      JSON is the `ValueError` the handler answers with 400; a document the
      record cannot be derived from raises another exception, which ends in
      500, as does a volume without a DVID type name. */
  function CreateOutcome(nodes: set<string>, datasets: map<string, Dataset>, params: seq<string>, body: seq<byte>,
                         decodeJson: seq<byte> -> Option<Metadata>): (o: Outcome)
    requires |params| == 6
    ensures o.Refused? ==> o.status in {400, 404, 409, 500}
    ensures params[3] != "new" ==> o == Refused(400)
    ensures params[3] == "new" && params[2] !in nodes ==> o == Refused(404)
    ensures params[3] == "new" && params[2] in nodes && params[2] + "/" + params[5] in datasets ==> o == Refused(409)
    ensures params[3] == "new" && params[2] in nodes && params[2] + "/" + params[5] !in datasets ==>
              (decodeJson(body).None? ==> o == Refused(400))
              && (decodeJson(body).Some? && InfoOf(decodeJson(body).value).Failure? ==> o == Refused(500))
              && (decodeJson(body).Some? && InfoOf(decodeJson(body).value).Success? ==>
                    var typename := DetermineDvidTypename(InfoOf(decodeJson(body).value).value);
                    (typename.Failure? ==> o == Refused(500))
                    && (typename.Success? && typename.value != params[4] ==> o == Refused(400))
                    && (typename == Success(params[4]) ==>
                          o == Done(204, VolumeCreated(params[2] + "/" + params[5],
                                                       Dataset(Reverse(InfoOf(decodeJson(body).value).value.shape),
                                                               InfoOf(decodeJson(body).value).value.dtype)))))
    ensures o.Done? ==>
              o.status == 204 && params[3] == "new" && params[2] in nodes
              && o.action.VolumeCreated? && o.action.path == params[2] + "/" + params[5]
              && o.action.path !in datasets
              && decodeJson(body).Some? && InfoOf(decodeJson(body).value).Success?
              && DetermineDvidTypename(InfoOf(decodeJson(body).value).value) == Success(params[4])
  {
    var uuid := params[2];
    var datasetPath := uuid + "/" + params[5];
    if params[3] != "new" then Refused(400)
    else if uuid !in nodes then Refused(404)
    else if datasetPath in datasets then Refused(409)
    else match decodeJson(body)
      case None => Refused(400)
      case Some(md) =>
        match InfoOf(md)
        case Failure(_) => Refused(500)
        case Success(info) =>
          match DetermineDvidTypename(info)
          case Failure(_) => Refused(500)
          case Success(expected) =>
            if params[4] != expected then Refused(400)
            else Done(204, VolumeCreated(datasetPath, Dataset(Reverse(info.shape), info.dtype)))
  }

  /** `_do_get_info`: only `schema` is an info query. */
  function InfoOutcome(params: seq<string>, datasetPath: string): (o: Outcome)
    requires |params| == 5
    ensures o.Done? <==> params[4] == "schema"
    ensures o.Refused? ==> o.status == 400
    ensures o.Done? ==> o == Done(200, InfoServed(datasetPath))
  {
    if params[4] != "schema" then Refused(400) else Done(200, InfoServed(datasetPath))
  }

  /** `_do_get_data`: the parsed box is read out. */
  function GetDataOutcome(params: seq<string>, datasetPath: string, ds: Dataset): (o: Outcome)
    requires |params| == 7
    ensures o.Done? <==> RequestRoi(params, |ds.shape|).Success?
    ensures o.Refused? ==> o.status == RequestRoi(params, |ds.shape|).error
    ensures o.Done? ==>
              o == Done(200, DataServed(datasetPath, RequestRoi(params, |ds.shape|).value.0,
                                        RequestRoi(params, |ds.shape|).value.1))
  {
    match RequestRoi(params, |ds.shape|)
    case Failure(status) => Refused(status)
    case Success((start, stop)) => Done(200, DataServed(datasetPath, start, stop))
  }

  /** The box `stop - start` as array extents, if none is negative (numpy
      refuses a negative dimension). */
  function NatExtents(start: seq<int>, stop: seq<int>): (r: Option<seq<nat>>)
    requires |start| == |stop|
    ensures r.Some? <==> forall k :: 0 <= k < |start| ==> start[k] <= stop[k]
    ensures r.Some? ==> r.value == Extents(start, stop)
  {
    if forall k :: 0 <= k < |start| ==> start[k] <= stop[k]
    then Some(seq(|start|, k requires 0 <= k < |start| => stop[k] - start[k]))
    else None
  }

  /** `_do_modify_data`: the parsed box gets the full channel range
      `(0, shape[-1])` prepended, and the body must decode as an array of
      that box in the dataset's dtype. */
  function ModifyOutcome(params: seq<string>, datasetPath: string, ds: Dataset, body: seq<byte>): (o: Outcome)
    requires |params| == 7
    ensures RequestRoi(params, |ds.shape|).Failure? ==> o == Refused(RequestRoi(params, |ds.shape|).error)
    ensures o.Refused? ==> o.status in {400, 500}
    ensures o.Done? ==>
              var roi := RequestRoi(params, |ds.shape|);
              roi.Success? && |ds.shape| >= 2 && o.status == 204
              && o.action == DataModified(datasetPath, [0] + roi.value.0, [ds.shape[|ds.shape| - 1]] + roi.value.1)
    ensures RequestRoi(params, |ds.shape|).Success? ==>
              var roi := RequestRoi(params, |ds.shape|);
              var fullStart := [0] + roi.value.0;
              var fullStop := [ds.shape[|ds.shape| - 1]] + roi.value.1;
              (NatExtents(fullStart, fullStop).None? ==> o == Refused(500))
              && (NatExtents(fullStart, fullStop).Some? ==>
                    (Decoded(NatExtents(fullStart, fullStop).value, ds.dtype, body).Failure? ==> o == Refused(500))
                    && (Decoded(NatExtents(fullStart, fullStop).value, ds.dtype, body).Success? ==>
                          o == Done(204, DataModified(datasetPath, fullStart, fullStop))))
  {
    match RequestRoi(params, |ds.shape|)
    case Failure(status) => Refused(status)
    case Success((start, stop)) =>
      var fullStart := [0] + start;
      var fullStop := [ds.shape[|ds.shape| - 1]] + stop;
      match NatExtents(fullStart, fullStop)
      case None => Refused(500)
      case Some(fullShape) =>
        if Decoded(fullShape, ds.dtype, body).Failure? then Refused(500)
        else Done(204, DataModified(datasetPath, fullStart, fullStop))
  }

  /** `_execute_request`: fewer than five parts is a syntax error; six parts
      with POST creates a volume; otherwise the dataset must exist, and five
      parts ask for info, seven for data (GET) or a write (POST). */
  function Dispatch(nodes: set<string>, datasets: map<string, Dataset>, verb: Method, path: string, body: seq<byte>,
                    decodeJson: seq<byte> -> Option<Metadata>): (o: Outcome)
    ensures |RequestParams(path)| < 5 ==> o == Refused(400)
    ensures o.Refused? ==> o.status in {400, 404, 409, 500}
    ensures o.Done? ==> o.status == (if o.action.VolumeCreated? || o.action.DataModified? then 204 else 200)
    ensures o.Done? && (o.action.VolumeCreated? || o.action.DataModified?) ==> verb == POST
    ensures o.Done? && o.action.DataServed? ==> verb == GET
    ensures o.Done? ==> |RequestParams(path)| in {5, 6, 7}
    ensures o.Done? && !o.action.VolumeCreated? ==> RequestParams(path)[2] + "/" + RequestParams(path)[3] in datasets
    ensures var p := RequestParams(path);
            |p| == 6 && verb == POST ==> o == CreateOutcome(nodes, datasets, p, body, decodeJson)
    ensures var p := RequestParams(path);
            |p| >= 5 && !(|p| == 6 && verb == POST) && p[2] + "/" + p[3] !in datasets ==> o == Refused(404)
    ensures var p := RequestParams(path);
            |p| >= 5 && !(|p| == 6 && verb == POST) && p[2] + "/" + p[3] in datasets ==>
              var datasetPath := p[2] + "/" + p[3];
              (|p| == 5 ==> o == InfoOutcome(p, datasetPath))
              && (|p| == 7 && verb == GET ==> o == GetDataOutcome(p, datasetPath, datasets[datasetPath]))
              && (|p| == 7 && verb == POST ==> o == ModifyOutcome(p, datasetPath, datasets[datasetPath], body))
              && (|p| != 5 && |p| != 7 ==> o == Refused(400))
  {
    var params := RequestParams(path);
    if |params| < 5 then Refused(400)
    else if |params| == 6 && verb == POST then CreateOutcome(nodes, datasets, params, body, decodeJson)
    else
      var datasetPath := params[2] + "/" + params[3];
      if datasetPath !in datasets then Refused(404)
      else if |params| == 5 then InfoOutcome(params, datasetPath)
      else if |params| == 7 then
        match verb
        case GET => GetDataOutcome(params, datasetPath, datasets[datasetPath])
        case POST => ModifyOutcome(params, datasetPath, datasets[datasetPath], body)
      else Refused(400)
  }

  /** The node group a dataset path lies in: the part before its first `/`. */
  function NodeOf(path: string): string
  {
    Split(path, '/')[0]
  }

  /** `uuid/name` lies in node `uuid`. */
  lemma NodeOfDatasetPath(uuid: string, name: string)
    requires '/' !in uuid
    ensures NodeOf(uuid + "/" + name) == uuid
  {
    SplitConcat(uuid, '/', name);
    SplitNoSep(uuid, '/');
  }

  /** In an HDF5 file a dataset `u/d` exists only inside the group `u`. */
  predicate DatasetsUnderNodes(nodes: set<string>, datasets: map<string, Dataset>)
  {
    forall p :: p in datasets ==> NodeOf(p) in nodes
  }

  /** A volume the server creates lies in an existing node. */
  lemma CreatedUnderNode(nodes: set<string>, datasets: map<string, Dataset>, verb: Method, path: string,
                         body: seq<byte>, decodeJson: seq<byte> -> Option<Metadata>)
    ensures var o := Dispatch(nodes, datasets, verb, path, body, decodeJson);
      o.Done? && o.action.VolumeCreated? ==> NodeOf(o.action.path) in nodes
  {
    var params := RequestParams(path);
    SplitPartsAvoid(path, '/');
    if |params| == 6 && verb == POST {
      assert '/' !in params[2];
      NodeOfDatasetPath(params[2], params[5]);
    }
  }

  class H5MockServer {
    /** The node groups at the file's root (the uuids). */
    var nodes: set<string>
    /** The datasets, by `uuid/data_name`. */
    var datasets: map<string, Dataset>

    /** Every stored dataset lies in one of the nodes. */
    predicate Valid()
      reads this
    {
      DatasetsUnderNodes(nodes, datasets)
    }

    constructor(nodes: set<string>, datasets: map<string, Dataset>)
      requires DatasetsUnderNodes(nodes, datasets)
      ensures Valid()
      ensures this.nodes == nodes && this.datasets == datasets
    {
      this.nodes := nodes;
      this.datasets := datasets;
    }

    /** `_do_create_volume`: the checks, then the new dataset is added. */
    method DoCreateVolume(params: seq<string>, body: seq<byte>, decodeJson: seq<byte> -> Option<Metadata>)
      returns (o: Outcome)
      requires |params| == 6 && '/' !in params[2] && Valid()
      modifies this
      ensures Valid()
      ensures o == CreateOutcome(old(nodes), old(datasets), params, body, decodeJson)
      ensures nodes == old(nodes)
      ensures datasets == if o.Done? then old(datasets)[o.action.path := o.action.dataset] else old(datasets)
    {
      if params[3] != "new" {
        return Refused(400);
      }
      var uuid := params[2];
      if uuid !in nodes {
        return Refused(404);
      }
      var datasetPath := uuid + "/" + params[5];
      if datasetPath in datasets {
        return Refused(409);
      }
      var md := decodeJson(body);
      if md.None? {
        return Refused(400);
      }
      var info := FromMetadata(md.value);
      if info.Failure? {
        return Refused(500);
      }
      var expected := DetermineDvidTypename(info.value);
      if expected.Failure? {
        return Refused(500);
      }
      if params[4] != expected.value {
        return Refused(400);
      }
      var created := Dataset(Reverse(info.value.shape), info.value.dtype);
      NodeOfDatasetPath(uuid, params[5]);
      datasets := datasets[datasetPath := created];
      o := Done(204, VolumeCreated(datasetPath, created));
    }

    /** `_execute_request`, step by step; only a volume creation changes the
        stored datasets. */
    method ExecuteRequest(verb: Method, path: string, body: seq<byte>, decodeJson: seq<byte> -> Option<Metadata>)
      returns (o: Outcome)
      requires Valid()
      modifies this
      ensures Valid()
      ensures o == Dispatch(old(nodes), old(datasets), verb, path, body, decodeJson)
      ensures nodes == old(nodes)
      ensures datasets == if o.Done? && o.action.VolumeCreated? then old(datasets)[o.action.path := o.action.dataset]
                          else old(datasets)
    {
      var params := Split(path, '/');
      if params[0] == "" {
        params := params[1..];
      }
      if |params| < 5 {
        return Refused(400);
      }
      if |params| == 6 && verb == POST {
        SplitPartsAvoid(path, '/');
        assert '/' !in params[2];
        o := DoCreateVolume(params, body, decodeJson);
        return;
      }
      var datasetPath := params[2] + "/" + params[3];
      if datasetPath !in datasets {
        return Refused(404);
      }
      var dataset := datasets[datasetPath];
      if |params| == 5 {
        o := InfoOutcome(params, datasetPath);
      } else if |params| == 7 {
        match verb
        case GET =>
          o := GetDataOutcome(params, datasetPath, dataset);
        case POST =>
          o := ModifyOutcome(params, datasetPath, dataset, body);
      } else {
        o := Refused(400);
      }
    }
  }

  /** Splitting `a/b` where `b` holds no `/`. */
  lemma SplitLast(a: string, b: string)
    requires '/' !in b
    ensures Split(a + "/" + b, '/') == Split(a, '/') + [b]
  {
    SplitConcat(a, '/', b);
    SplitNoSep(b, '/');
  }

  /** The parts of a path that starts `/api/<kind>/<uuid>`. */
  lemma ApiPrefix(kind: string, uuid: string)
    requires '/' !in kind && '/' !in uuid
    ensures Split("/api/" + kind + "/" + uuid, '/') == ["", "api", kind, uuid]
  {
    assert "/api/" + kind + "/" + uuid == "" + "/" + "api" + "/" + kind + "/" + uuid;
    SplitLast("", "api");
    SplitLast("" + "/" + "api", kind);
    SplitLast("" + "/" + "api" + "/" + kind, uuid);
  }

  /** The parts of dvidclient's subvolume path. */
  lemma SubvolumePathParams(uuid: string, dataName: string, dims: string, extents: string, offsets: string)
    requires '/' !in uuid && '/' !in dataName && '/' !in dims && '/' !in extents && '/' !in offsets
    ensures RequestParams(SubvolumePath(uuid, dataName, dims, extents, offsets))
         == ["api", "node", uuid, dataName, dims, extents, offsets]
  {
    var x2 := "/api/node/" + uuid + "/" + dataName;
    DataPrefix(uuid, dataName);
    SplitLast(x2, dims);
    var x4 := x2 + "/" + dims + "/" + extents;
    SplitLast(x2 + "/" + dims, extents);
    assert Split(x4, '/') == ["", "api", "node", uuid, dataName, dims, extents];
    SplitLast(x4, offsets);
  }

  /** Splitting `a/m/b` where neither `m` nor `b` holds a `/`. */
  lemma SplitInfix(a: string, m: string, b: string)
    requires '/' !in m && '/' !in b
    ensures Split(a + ("/" + m + "/") + b, '/') == Split(a, '/') + [m, b]
  {
    assert a + ("/" + m + "/") + b == a + "/" + m + "/" + b;
    SplitLast(a, m);
    SplitLast(a + "/" + m, b);
  }

  /** The parts of pydvid's subvolume URI (without a format). */
  lemma RawPathParams(uuid: string, dataName: string, dims: string, extents: string, offsets: string)
    requires '/' !in uuid && '/' !in dataName && '/' !in dims && '/' !in extents && '/' !in offsets
    ensures RequestParams(RawPath(uuid, dataName, dims, extents, offsets))
         == ["api", "node", uuid, dataName, "raw", dims, extents, offsets]
  {
    var x2 := "/api/node/" + uuid + "/" + dataName;
    DataPrefix(uuid, dataName);
    var x3 := x2 + "/raw/" + dims;
    assert "/raw/" == "/" + "raw" + "/";
    SplitInfix(x2, "raw", dims);
    assert Split(x3, '/') == ["", "api", "node", uuid, dataName, "raw", dims];
    var x4 := x3 + "/" + extents;
    SplitLast(x3, extents);
    assert Split(x4, '/') == ["", "api", "node", uuid, dataName, "raw", dims, extents];
    SplitLast(x4, offsets);
  }

  /** The parts of the volume-creation path. */
  lemma CreatePathParams(uuid: string, typename: string, dataName: string)
    requires '/' !in uuid && '/' !in typename && '/' !in dataName
    ensures RequestParams(CreateVolumePath(uuid, typename, dataName)) == ["api", "dataset", uuid, "new", typename, dataName]
  {
    var x1 := "/api/dataset/" + uuid;
    assert x1 == "/api/" + "dataset" + "/" + uuid;
    ApiPrefix("dataset", uuid);
    var x2 := x1 + "/new/" + typename;
    assert "/new/" == "/" + "new" + "/";
    SplitInfix(x1, "new", typename);
    assert Split(x2, '/') == ["", "api", "dataset", uuid, "new", typename];
    SplitLast(x2, dataName);
  }

  /** The parts of a five-part node path ending in `tail`. */
  lemma NodeQueryParams(uuid: string, dataName: string, tail: string)
    requires '/' !in uuid && '/' !in dataName && '/' !in tail
    ensures RequestParams("/api/node/" + uuid + "/" + dataName + "/" + tail) == ["api", "node", uuid, dataName, tail]
  {
    DataPrefix(uuid, dataName);
    SplitLast("/api/node/" + uuid + "/" + dataName, tail);
  }

  /** The parts of `/api/node/<uuid>/<dataName>`. */
  lemma DataPrefix(uuid: string, dataName: string)
    requires '/' !in uuid && '/' !in dataName
    ensures Split("/api/node/" + uuid + "/" + dataName, '/') == ["", "api", "node", uuid, dataName]
  {
    var x1 := "/api/node/" + uuid;
    assert x1 == "/api/" + "node" + "/" + uuid;
    ApiPrefix("node", uuid);
    SplitLast(x1, dataName);
  }

  /** The parts of dvidclient's path for a valid request, channel axis first. */
  lemma ClientQueryParams(uuid: string, dataName: string, shape: seq<int>, start: seq<int>, stop: seq<int>)
    requires ValidBounds(shape, start, stop) && |shape| >= 2
    requires '/' !in uuid && '/' !in dataName
    ensures FormatSubvolumeRestQuery(uuid, dataName, shape, 0, start, stop).Success?
    ensures RequestParams(FormatSubvolumeRestQuery(uuid, dataName, shape, 0, start, stop).value)
         == ["api", "node", uuid, dataName, Dims(|shape| - 1),
             JoinInts(Extents(start[1..], stop[1..])), JoinInts(start[1..])]
  {
    RemoveFirstKeepsBounds(shape, start, stop);
    var extents := Extents(start[1..], stop[1..]);
    JoinIntsAvoids(Range(|shape| - 1), '/');
    JoinIntsAvoids(extents, '/');
    JoinIntsAvoids(start[1..], '/');
    SubvolumePathParams(uuid, dataName, Dims(|shape| - 1), JoinInts(extents), JoinInts(start[1..]));
  }

  /** The ROI parser reads back the coordinate lists the client formatted. */
  lemma RoiOfJoined(uuid: string, dataName: string, ndims: nat, offsets: seq<int>, extents: seq<int>)
    requires |offsets| == |extents| == ndims - 1 >= 1
    ensures RequestRoi(["api", "node", uuid, dataName, Dims(ndims - 1), JoinInts(extents), JoinInts(offsets)], ndims)
         == Success((offsets, AddVec(offsets, extents)))
  {
    ParseIntsOfJoinInts(offsets);
    ParseIntsOfJoinInts(extents);
  }

  /** Parsing a path built by dvidclient's formatter, with the channel axis
      first and at least one other axis, gives back `start[1:]` and
      `stop[1:]` on a dataset with as many axes as the volume. */
  lemma RoiRoundTrip(uuid: string, dataName: string, shape: seq<int>, start: seq<int>, stop: seq<int>)
    requires ValidBounds(shape, start, stop) && |shape| >= 2
    requires '/' !in uuid && '/' !in dataName
    ensures FormatSubvolumeRestQuery(uuid, dataName, shape, 0, start, stop).Success?
    ensures var params := RequestParams(FormatSubvolumeRestQuery(uuid, dataName, shape, 0, start, stop).value);
      |params| == 7 && params[2] == uuid && params[3] == dataName
      && RequestRoi(params, |shape|) == Success((start[1..], stop[1..]))
  {
    ClientQueryParams(uuid, dataName, shape, start, stop);
    var extents := Extents(start[1..], stop[1..]);
    RoiOfJoined(uuid, dataName, |shape|, start[1..], extents);
    AddExtents(start[1..], stop[1..]);
  }

  /** Start plus `stop - start` is stop. */
  lemma AddExtents(start: seq<int>, stop: seq<int>)
    requires |start| == |stop|
    ensures AddVec(start, Extents(start, stop)) == stop
  {
    assert forall k :: 0 <= k < |stop| ==> AddVec(start, Extents(start, stop))[k] == stop[k];
  }

  /** The mock server serves exactly the box dvidclient asked for: a GET of
      the client's path answers 200 with `start[1:]`..`stop[1:]`. */
  lemma ServesClientQuery(nodes: set<string>, datasets: map<string, Dataset>, uuid: string, dataName: string,
                          shape: seq<int>, start: seq<int>, stop: seq<int>, decodeJson: seq<byte> -> Option<Metadata>)
    requires ValidBounds(shape, start, stop) && |shape| >= 2
    requires '/' !in uuid && '/' !in dataName
    requires uuid + "/" + dataName in datasets && |datasets[uuid + "/" + dataName].shape| == |shape|
    ensures FormatSubvolumeRestQuery(uuid, dataName, shape, 0, start, stop).Success?
    ensures Dispatch(nodes, datasets, GET, FormatSubvolumeRestQuery(uuid, dataName, shape, 0, start, stop).value, [], decodeJson)
         == Done(200, DataServed(uuid + "/" + dataName, start[1..], stop[1..]))
  {
    RoiRoundTrip(uuid, dataName, shape, start, stop);
  }

  /** A write from dvidclient's `modify_subvolume` (all channels, the
      array's Fortran bytes as body) is stored over exactly the requested
      box, channels included, when the dataset's last C-order axis holds the
      channels. */
  lemma StoresClientWrite(nodes: set<string>, datasets: map<string, Dataset>, uuid: string, dataName: string,
                          shape: seq<int>, start: seq<int>, stop: seq<int>, newData: NdArray,
                          decodeJson: seq<byte> -> Option<Metadata>)
    requires ValidBounds(shape, start, stop) && |shape| >= 2 && start[0] == 0 && stop[0] == shape[0]
    requires '/' !in uuid && '/' !in dataName
    requires uuid + "/" + dataName in datasets
    requires var ds := datasets[uuid + "/" + dataName];
      |ds.shape| == |shape| && ds.shape[|ds.shape| - 1] == shape[0] && ds.dtype == newData.dtype
    requires Valid(newData) && newData.shape == RoiShape(start, stop)
    ensures FormatSubvolumeRestQuery(uuid, dataName, shape, 0, start, stop).Success?
    ensures Dispatch(nodes, datasets, POST, FormatSubvolumeRestQuery(uuid, dataName, shape, 0, start, stop).value,
                     FortranBytes(newData), decodeJson)
         == Done(204, DataModified(uuid + "/" + dataName, start, stop))
  {
    RoiRoundTrip(uuid, dataName, shape, start, stop);
    var path := FormatSubvolumeRestQuery(uuid, dataName, shape, 0, start, stop).value;
    var datasetPath := uuid + "/" + dataName;
    var params := RequestParams(path);
    ModifyStoresBox(params, datasetPath, datasets[datasetPath], newData, shape, start, stop);
    assert Dispatch(nodes, datasets, POST, path, FortranBytes(newData), decodeJson)
        == ModifyOutcome(params, datasetPath, datasets[datasetPath], FortranBytes(newData));
  }

  /** The write handler stores a full-channel box whose body is one buffer
      of that box. */
  lemma ModifyStoresBox(params: seq<string>, datasetPath: string, ds: Dataset, newData: NdArray,
                        shape: seq<int>, start: seq<int>, stop: seq<int>)
    requires ValidBounds(shape, start, stop) && |shape| >= 2 && start[0] == 0 && stop[0] == shape[0]
    requires |params| == 7 && RequestRoi(params, |shape|) == Success((start[1..], stop[1..]))
    requires |ds.shape| == |shape| && ds.shape[|ds.shape| - 1] == shape[0] && ds.dtype == newData.dtype
    requires Valid(newData) && newData.shape == RoiShape(start, stop)
    ensures ModifyOutcome(params, datasetPath, ds, FortranBytes(newData)) == Done(204, DataModified(datasetPath, start, stop))
  {
    var fullStart := [0] + start[1..];
    var fullStop := [ds.shape[|ds.shape| - 1]] + stop[1..];
    assert fullStart == start;
    assert fullStop == stop;
    WriteBodyDecodes(newData, start, stop);
    assert Decoded(NatExtents(fullStart, fullStop).value, ds.dtype, FortranBytes(newData)).Success?;
  }

  /** The Fortran bytes of an array of the box `stop - start` are one buffer
      of that box. */
  lemma WriteBodyDecodes(newData: NdArray, start: seq<int>, stop: seq<int>)
    requires |start| == |stop| && forall k :: 0 <= k < |start| ==> start[k] < stop[k]
    requires Valid(newData) && newData.shape == RoiShape(start, stop)
    ensures NatExtents(start, stop) == Some(newData.shape)
    ensures Decoded(newData.shape, newData.dtype, FortranBytes(newData)).Success?
  {
    EncodedLength(newData);
  }

  /** pydvid's `/raw/` URI has eight parts, which the mock server does not
      understand: 400 for a known dataset, 404 otherwise. */
  lemma RawUriRefused(nodes: set<string>, datasets: map<string, Dataset>, verb: Method, uuid: string, dataName: string,
                      start: seq<int>, stop: seq<int>, body: seq<byte>, decodeJson: seq<byte> -> Option<Metadata>)
    requires |start| == |stop| && '/' !in uuid && '/' !in dataName
    ensures Dispatch(nodes, datasets, verb, FormatSubvolumeRestUri(uuid, dataName, start, stop, ""), body, decodeJson)
         == if uuid + "/" + dataName in datasets then Refused(400) else Refused(404)
  {
    var offsets := DropChannel(start);
    var extents := Extents(DropChannel(start), DropChannel(stop));
    JoinIntsAvoids(Range(|offsets|), '/');
    JoinIntsAvoids(extents, '/');
    JoinIntsAvoids(offsets, '/');
    RawPathParams(uuid, dataName, Dims(|offsets|), JoinInts(extents), JoinInts(offsets));
  }

  /** dvidclient's creation request is accepted when the node exists, the
      name is free and the description's type name is the one in the path. */
  lemma AcceptsClientCreate(nodes: set<string>, datasets: map<string, Dataset>, uuid: string, dataName: string,
                            info: VolumeInfo, body: seq<byte>, decodeJson: seq<byte> -> Option<Metadata>)
    requires DetermineDvidTypename(info).Success?
    requires '/' !in uuid && '/' !in DetermineDvidTypename(info).value && '/' !in dataName
    requires uuid in nodes && uuid + "/" + dataName !in datasets
    requires decodeJson(body).Some? && InfoOf(decodeJson(body).value) == Success(info)
    ensures Dispatch(nodes, datasets, POST, CreateVolumePath(uuid, DetermineDvidTypename(info).value, dataName), body, decodeJson)
         == Done(204, VolumeCreated(uuid + "/" + dataName, Dataset(Reverse(info.shape), info.dtype)))
  {
    CreatePathParams(uuid, DetermineDvidTypename(info).value, dataName);
  }

  /** dvidclient's schema query is answered as an info query; pydvid's
      metadata query is not understood. */
  lemma SchemaServedMetadataRefused(nodes: set<string>, datasets: map<string, Dataset>, uuid: string, dataName: string,
                                    decodeJson: seq<byte> -> Option<Metadata>)
    requires '/' !in uuid && '/' !in dataName && uuid + "/" + dataName in datasets
    ensures Dispatch(nodes, datasets, GET, SchemaPath(uuid, dataName), [], decodeJson)
         == Done(200, InfoServed(uuid + "/" + dataName))
    ensures Dispatch(nodes, datasets, GET, MetadataPath(uuid, dataName), [], decodeJson) == Refused(400)
  {
    assert SchemaPath(uuid, dataName) == "/api/node/" + uuid + "/" + dataName + "/" + "schema";
    assert MetadataPath(uuid, dataName) == "/api/node/" + uuid + "/" + dataName + "/" + "metadata";
    NodeQueryParams(uuid, dataName, "schema");
    NodeQueryParams(uuid, dataName, "metadata");
  }
}
