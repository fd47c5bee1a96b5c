/** pydvid's `VoxelsAccessor`: numpy-style slicing of a remote volume. A
    slicing is expanded to one item per axis, its open bounds are made
    explicit, and it is split into the dense box requested from the server
    (all channels) and the slicing that picks the caller's voxels out of
    that box. Writes must be dense boxes over every channel. */
module VoxelsAccessors {
  import opened Wrappers
  import opened NdArrays
  import opened Errors
  import opened Http
  import opened Subvolumes
  import opened Voxels

  /** One item of a numpy index: an integer, a slice with optional bounds
      and step, or `...`. */
  datatype Idx = Int(i: int) | Slice(start: Option<int>, stop: Option<int>, step: Option<int>) | Ellipsis

  /** What `__getitem__`/`__setitem__` receive: a bare item, or a list or
      tuple of items. */
  datatype Slicing = Single(item: Idx) | Many(items: seq<Idx>)

  /** `slice(None)`, i.e. `:`. */
  const FullSlice: Idx := Slice(None, None, None)

  /** The slicing as a tuple: a list is converted, a bare item wrapped. */
  function Items(s: Slicing): seq<Idx>
  {
    match s
    case Single(x) => [x]
    case Many(xs) => xs
  }

  function FullSlices(n: nat): (r: seq<Idx>)
    ensures |r| == n && Ellipsis !in r
    ensures forall k :: 0 <= k < n ==> r[k] == FullSlice
  {
    seq(n, _ => FullSlice)
  }

  /** `s.index(Ellipsis)`. */
  function FirstEllipsis(s: seq<Idx>): (i: nat)
    requires Ellipsis in s
    ensures i < |s| && s[i] == Ellipsis && Ellipsis !in s[..i]
  {
    if s[0] == Ellipsis then 0
    else
      assert Ellipsis in s[1..] by { assert s == [s[0]] + s[1..]; }
      var j := FirstEllipsis(s[1..]);
      assert s[..j + 1] == [s[0]] + s[1..][..j];
      1 + j
  }

  /** A slicing longer than the shape is accepted only as `[...]` or `[:]`. */
  predicate TooLong(t: seq<Idx>, shape: seq<int>)
  {
    |shape| < |t| && t != [Ellipsis] && t != [FullSlice]
  }

  /** `_expand_slicing`: one item per axis. The first `...` becomes as many
      `:` as there are missing axes plus one, a second `...` is an error,
      and `:` is appended up to the number of axes; a volume without axes is
      indexed by `()`. */
  function ExpandSlicing(s: Slicing, shape: seq<int>): (r: Result<seq<Idx>, Error>)
    ensures r == Failure(TooManyIndices) <==> TooLong(Items(s), shape)
    ensures r == Failure(MultipleEllipsis) <==> !TooLong(Items(s), shape) && multiset(Items(s))[Ellipsis] >= 2
    ensures r.Success? <==> !TooLong(Items(s), shape) && multiset(Items(s))[Ellipsis] <= 1
    ensures r.Success? ==> |r.value| == |shape| && Ellipsis !in r.value
    ensures r.Success? && |shape| > 0 && Ellipsis !in Items(s) ==>
              |Items(s)| <= |shape| && r.value == Items(s) + FullSlices(|shape| - |Items(s)|)
    ensures r.Success? && |shape| > 0 && Ellipsis in Items(s) ==>
              var t := Items(s);
              var ei := FirstEllipsis(t);
              |t| <= |shape| + 1 && r.value == t[..ei] + FullSlices(|shape| - |t| + 1) + t[ei + 1..]
  {
    var t := Items(s);
    if TooLong(t, shape) then Failure(TooManyIndices)
    else
      var u := if Ellipsis in t then ReplaceFirstEllipsis(t, shape) else t;
      if Ellipsis in u then Failure(MultipleEllipsis)
      else if |shape| == 0 then Success([])
      else Success(u + FullSlices(|shape| - |u|))
  }

  /** The first `...` of a slicing that is not too long, replaced by
      `len(shape) - len(t) + 1` full slices. */
  function ReplaceFirstEllipsis(t: seq<Idx>, shape: seq<int>): (u: seq<Idx>)
    requires Ellipsis in t && !TooLong(t, shape)
    ensures |t| <= |shape| + 1 && |u| == |shape|
    ensures multiset(u)[Ellipsis] == multiset(t)[Ellipsis] - 1
  {
    var ei := FirstEllipsis(t);
    assert t == t[..ei] + [t[ei]] + t[ei + 1..];
    assert |t| <= |shape| + 1;
    t[..ei] + FullSlices(|shape| - |t| + 1) + t[ei + 1..]
  }

  /** The examples of `_expand_slicing`'s documentation, on a volume of shape
      (1,2,3,4,5): `0` is padded to `(0,:,:,:,:)`. */
  lemma ExpandIntExample()
    ensures ExpandSlicing(Single(Int(0)), [1, 2, 3, 4, 5])
         == Success([Int(0), FullSlice, FullSlice, FullSlice, FullSlice])
  {
    assert Ellipsis !in [Int(0)];
    assert [Int(0)] + FullSlices(4) == [Int(0), FullSlice, FullSlice, FullSlice, FullSlice];
  }

  /** `...` on the same volume is `(:,:,:,:,:)`. */
  lemma ExpandEllipsisExample()
    ensures ExpandSlicing(Single(Ellipsis), [1, 2, 3, 4, 5]) == Success(FullSlices(5))
  {
    assert FirstEllipsis([Ellipsis]) == 0;
    assert ReplaceFirstEllipsis([Ellipsis], [1, 2, 3, 4, 5]) == FullSlices(5);
    assert FullSlices(5) + FullSlices(0) == FullSlices(5);
  }

  /** `(0,0,...,4)` on the same volume is `(0,0,:,:,4)`. */
  lemma ExpandInnerEllipsisExample()
    ensures ExpandSlicing(Many([Int(0), Int(0), Ellipsis, Int(4)]), [1, 2, 3, 4, 5])
         == Success([Int(0), Int(0), FullSlice, FullSlice, Int(4)])
  {
    var t := [Int(0), Int(0), Ellipsis, Int(4)];
    assert FirstEllipsis(t) == 2;
    var u := [Int(0), Int(0), FullSlice, FullSlice, Int(4)];
    assert ReplaceFirstEllipsis(t, [1, 2, 3, 4, 5]) == u;
    assert Ellipsis !in u;
    assert u + FullSlices(0) == u;
  }

  /** A slicing item whose bounds are known: an integer or a slice with both
      bounds given. */
  predicate IsExplicitItem(x: Idx)
  {
    x.Int? || (x.Slice? && x.start.Some? && x.stop.Some?)
  }

  predicate IsExplicit(s: seq<Idx>)
  {
    forall k :: 0 <= k < |s| ==> IsExplicitItem(s[k])
  }

  /** One item of `_explicit_slicing`: an open start becomes 0, an open stop
      the axis length; integers, steps and given bounds are kept. */
  function ExplicitItem(x: Idx, maxstop: int): (r: Idx)
    ensures x != Ellipsis ==> IsExplicitItem(r)
    ensures !x.Slice? ==> r == x
    ensures x.Slice? ==>
              r.Slice? && r.step == x.step
              && r.start == (if x.start.Some? then x.start else Some(0))
              && r.stop == (if x.stop.Some? then x.stop else Some(maxstop))
  {
    match x
    case Slice(start, stop, step) =>
      Slice(Some(if start.Some? then start.value else 0), Some(if stop.Some? then stop.value else maxstop), step)
    case _ => x
  }

  /** `_explicit_slicing` item by item, over `zip(slicing, shape)`. */
  function ExplicitOf(slicing: seq<Idx>, shape: seq<int>): (r: seq<Idx>)
    ensures |r| == (if |slicing| < |shape| then |slicing| else |shape|)
  {
    var n := if |slicing| < |shape| then |slicing| else |shape|;
    seq(n, k requires 0 <= k < n => ExplicitItem(slicing[k], shape[k]))
  }

  /** `_explicit_slicing`: a loop appending one explicit item per axis. */
  method ExplicitSlicing(slicing: seq<Idx>, shape: seq<int>) returns (r: seq<Idx>)
    ensures r == ExplicitOf(slicing, shape)
  {
    var n := if |slicing| < |shape| then |slicing| else |shape|;
    r := [];
    var i := 0;
    while i < n
      invariant 0 <= i <= n && |r| == i
      invariant forall k :: 0 <= k < i ==> r[k] == ExplicitItem(slicing[k], shape[k])
    {
      var slc := slicing[i];
      if !slc.Slice? {
        r := r + [slc];
      } else {
        var start, stop := slc.start, slc.stop;
        if start.None? {
          start := Some(0);
        }
        if stop.None? {
          stop := Some(shape[i]);
        }
        r := r + [Slice(start, stop, slc.step)];
      }
      i := i + 1;
    }
  }

  /** An expanded slicing, made explicit, has one known-bounds item per axis. */
  lemma ExpandedIsExplicit(s: Slicing, shape: seq<int>)
    requires ExpandSlicing(s, shape).Success?
    ensures |ExplicitOf(ExpandSlicing(s, shape).value, shape)| == |shape|
    ensures IsExplicit(ExplicitOf(ExpandSlicing(s, shape).value, shape))
  {
    var e := ExpandSlicing(s, shape).value;
    forall k | 0 <= k < |shape|
      ensures IsExplicitItem(ExplicitOf(e, shape)[k])
    {
      assert e[k] in e;
    }
  }

  /** A request item: a slice is requested as given, an integer `i` as
      `i:i+1`. */
  function RequestItem(x: Idx): (r: Idx)
    requires IsExplicitItem(x)
    ensures IsExplicitItem(r) && r.Slice?
  {
    match x
    case Int(i) => Slice(Some(i), Some(i + 1), None)
    case Slice(_, _, _) => x
  }

  /** A result item: a slice `a:b:st` becomes `0:b-a:st` within the requested
      box, an integer becomes 0 (and still drops its axis). */
  function ResultItem(x: Idx): (r: Idx)
    requires IsExplicitItem(x)
    ensures IsExplicitItem(r)
  {
    match x
    case Int(_) => Int(0)
    case Slice(start, stop, step) => Slice(Some(0), Some(stop.value - start.value), step)
  }

  /** The request entry of the channel axis: `0:shape[0]`. */
  function ChannelRequest(shape: seq<int>): Idx
    requires |shape| >= 1
  {
    Slice(Some(0), Some(shape[0]), None)
  }

  /** A request slicing: explicit slices only, so it is a box. */
  predicate IsBox(request: seq<Idx>)
  {
    forall k :: 0 <= k < |request| ==> request[k].Slice? && request[k].start.Some? && request[k].stop.Some?
  }

  /** `_determine_request_slicings`, as a value: item by item, then the
      channel axis is requested in full and keeps the caller's own item in
      the result. */
  function RequestSlicings(full: seq<Idx>, shape: seq<int>): (r: Result<(seq<Idx>, seq<Idx>), Error>)
    requires IsExplicit(full)
    ensures r.Success? <==> |full| >= 1 && |shape| >= 1
    ensures r.Failure? ==> r.error == EmptyVector
    ensures r.Success? ==>
              var (request, result) := r.value;
              |request| == |result| == |full| && IsBox(request) && IsExplicit(result)
              && request[0] == ChannelRequest(shape) && result[0] == full[0]
              && (forall k :: 1 <= k < |full| ==> request[k] == RequestItem(full[k]) && result[k] == ResultItem(full[k]))
  {
    if |full| == 0 || |shape| == 0 then Failure(EmptyVector)
    else
      var request := seq(|full|, k requires 0 <= k < |full| => RequestItem(full[k]));
      var result := seq(|full|, k requires 0 <= k < |full| => ResultItem(full[k]));
      Success((request[0 := ChannelRequest(shape)], result[0 := full[0]]))
  }

  /** `_determine_request_slicings`: a loop appending one request item and
      one result item per axis, then the channel entries are overwritten. */
  method DetermineRequestSlicings(full: seq<Idx>, shape: seq<int>) returns (r: Result<(seq<Idx>, seq<Idx>), Error>)
    requires IsExplicit(full)
    ensures r == RequestSlicings(full, shape)
  {
    var request: seq<Idx> := [];
    var result: seq<Idx> := [];
    var i := 0;
    while i < |full|
      invariant 0 <= i <= |full| && |request| == |result| == i
      invariant forall k :: 0 <= k < i ==> request[k] == RequestItem(full[k]) && result[k] == ResultItem(full[k])
    {
      var s := full[i];
      if s.Slice? {
        request := request + [s];
        result := result + [Slice(Some(0), Some(s.stop.value - s.start.value), s.step)];
      } else {
        request := request + [Slice(Some(s.i), Some(s.i + 1), None)];
        result := result + [Int(0)];
      }
      i := i + 1;
    }
    if |shape| == 0 || |request| == 0 {
      return Failure(EmptyVector);
    }
    assert request == seq(|full|, k requires 0 <= k < |full| => RequestItem(full[k]));
    assert result == seq(|full|, k requires 0 <= k < |full| => ResultItem(full[k]));
    request := request[0 := ChannelRequest(shape)];
    result := result[0 := full[0]];
    r := Success((request, result));
  }

  /** A result item read inside the requested box, moved back to volume
      coordinates by the box's start. */
  function Shift(request: Idx, result: Idx): Idx
    requires request.Slice? && request.start.Some?
  {
    var o := request.start.value;
    match result
    case Int(j) => Int(o + j)
    case Slice(a, b, st) =>
      Slice(if a.Some? then Some(o + a.value) else None, if b.Some? then Some(o + b.value) else None, st)
    case Ellipsis => Ellipsis
  }

  /** The result slicing, read in the requested box, selects exactly what
      the caller asked for, on every axis including the channel axis. */
  lemma RequestResultCompose(full: seq<Idx>, shape: seq<int>)
    requires IsExplicit(full) && RequestSlicings(full, shape).Success?
    ensures var (request, result) := RequestSlicings(full, shape).value;
      forall k :: 0 <= k < |full| ==> Shift(request[k], result[k]) == full[k]
  {
    var (request, result) := RequestSlicings(full, shape).value;
    forall k | 0 <= k < |full|
      ensures Shift(request[k], result[k]) == full[k]
    {
      assert IsExplicitItem(full[k]);
    }
  }

  function Starts(request: seq<Idx>): (r: seq<int>)
    requires IsBox(request)
    ensures |r| == |request|
  {
    seq(|request|, k requires 0 <= k < |request| => request[k].start.value)
  }

  function Stops(request: seq<Idx>): (r: seq<int>)
    requires IsBox(request)
    ensures |r| == |request|
  {
    seq(|request|, k requires 0 <= k < |request| => request[k].stop.value)
  }

  /** Every requested box covers all channels, so it passes the channel
      assertions of `_validate_query_bounds`. */
  lemma RequestCoversChannels(full: seq<Idx>, shape: seq<int>)
    requires IsExplicit(full) && RequestSlicings(full, shape).Success?
    ensures var request := RequestSlicings(full, shape).value.0;
      FullChannelCheck(Starts(request), Stops(request), shape).Success?
  {
  }

  /** numpy's product of a possibly negative extent vector. */
  function IntProd(s: seq<int>): int
  {
    if |s| == 0 then 1 else s[0] * IntProd(s[1..])
  }

  /** The validation `__setitem__` does on the split slicing: no stepped
      slice, the channel item exactly `0:shape[0]`, and as many elements in
      the data as in the box; the result is the box's start and stop. */
  function SetItemCheck(request: seq<Idx>, result: seq<Idx>, shape: seq<int>, dataShape: seq<nat>)
    : (r: Result<(seq<int>, seq<int>), Error>)
    requires IsBox(request) && |request| == |result| >= 1 && |shape| >= 1
    ensures (exists k :: 0 <= k < |result| && result[k].Slice? && result[k].step.Some?) ==> r == Failure(SteppedWrite)
    ensures r.Success? <==>
              (forall k :: 0 <= k < |result| && result[k].Slice? ==> result[k].step.None?)
              && result[0] == ChannelRequest(shape)
              && Prod(dataShape) == IntProd(Extents(Starts(request), Stops(request)))
    ensures r.Success? ==> r.value == (Starts(request), Stops(request))
  {
    if exists k :: 0 <= k < |result| && result[k].Slice? && result[k].step.Some? then Failure(SteppedWrite)
    else if result[0] != ChannelRequest(shape) then Failure(PartialChannels)
    else
      var start, stop := Starts(request), Stops(request);
      if Prod(dataShape) != IntProd(Extents(start, stop)) then Failure(DataSizeMismatch)
      else Success((start, stop))
  }

  /** The box `__getitem__` requests and the slicing it applies to the
      answer. */
  function ReadPlan(s: Slicing, shape: seq<int>): (r: Result<(seq<int>, seq<int>, seq<Idx>), Error>)
    ensures r.Success? ==> FullChannelCheck(r.value.0, r.value.1, shape).Success?
  {
    match ExpandSlicing(s, shape)
    case Failure(e) => Failure(e)
    case Success(expanded) =>
      ExpandedIsExplicit(s, shape);
      var explicit := ExplicitOf(expanded, shape);
      match RequestSlicings(explicit, shape)
      case Failure(e) => Failure(e)
      case Success(split) =>
        RequestCoversChannels(explicit, shape);
        Success((Starts(split.0), Stops(split.0), split.1))
  }

  /** The box `__setitem__` posts to, after its validation. */
  function WritePlan(s: Slicing, shape: seq<int>, dataShape: seq<nat>): (r: Result<(seq<int>, seq<int>), Error>)
    ensures r.Success? ==> FullChannelCheck(r.value.0, r.value.1, shape).Success?
  {
    match ExpandSlicing(s, shape)
    case Failure(e) => Failure(e)
    case Success(expanded) =>
      ExpandedIsExplicit(s, shape);
      var explicit := ExplicitOf(expanded, shape);
      match RequestSlicings(explicit, shape)
      case Failure(e) => Failure(e)
      case Success(split) =>
        RequestCoversChannels(explicit, shape);
        SetItemCheck(split.0, split.1, shape, dataShape)
  }

  /** A write is accepted only if the caller's channel item, made explicit,
      was `0:shape[0]` with no step. */
  lemma WriteCoversCallerChannels(s: Slicing, shape: seq<int>, dataShape: seq<nat>)
    requires WritePlan(s, shape, dataShape).Success?
    ensures ExpandSlicing(s, shape).Success? && |shape| >= 1
    ensures ExplicitItem(ExpandSlicing(s, shape).value[0], shape[0]) == ChannelRequest(shape)
  {
    var expanded := ExpandSlicing(s, shape).value;
    ExpandedIsExplicit(s, shape);
    var explicit := ExplicitOf(expanded, shape);
    var split := RequestSlicings(explicit, shape).value;
    assert split.1[0] == explicit[0];
  }

  /** `post_ndarray`'s refresh test: some stop beyond the known shape or some
      start below the known lower corner. */
  predicate NeedsRefresh(start: seq<int>, stop: seq<int>, shape: seq<int>, minindex: seq<int>): (b: bool)
    ensures !b <==> (forall k :: 0 <= k < |stop| && k < |shape| ==> stop[k] <= shape[k])
                    && (forall k :: 0 <= k < |start| && k < |minindex| ==> minindex[k] <= start[k])
  {
    (exists k :: 0 <= k < |stop| && k < |shape| && stop[k] > shape[k])
    || (exists k :: 0 <= k < |start| && k < |minindex| && start[k] < minindex[k])
  }

  /** A post that got through `_validate_query_bounds` never ends beyond the
      shape, so only a start below `minindex` triggers the refresh. */
  lemma RefreshOnlyBelowMinindex(start: seq<int>, stop: seq<int>, shape: seq<int>, minindex: seq<int>)
    requires ValidateQueryBounds(start, stop, shape).Success?
    ensures NeedsRefresh(start, stop, shape, minindex) <==>
              exists k :: 0 <= k < |start| && k < |minindex| && start[k] < minindex[k]
  {
  }

  /** The checks of `__setitem__` before it posts: expand the slicing, make
      it explicit, split it, then validate the split against the data. */
  method CheckWrite(slicing: Slicing, shape: seq<int>, dataShape: seq<nat>) returns (box: Result<(seq<int>, seq<int>), Error>)
    ensures box == WritePlan(slicing, shape, dataShape)
  {
    var expanded := ExpandSlicing(slicing, shape);
    if expanded.Failure? {
      return Failure(expanded.error);
    }
    var explicit := ExplicitSlicing(expanded.value, shape);
    ExpandedIsExplicit(slicing, shape);
    var split := DetermineRequestSlicings(explicit, shape);
    if split.Failure? {
      return Failure(split.error);
    }
    var (request, result) := split.value;
    box := SetItemCheck(request, result, shape, dataShape);
  }

  class VoxelsAccessor {
    const uuid: string
    const dataName: string
    const connection: Connection
    /** The volume's metadata, re-fetched after a post that may grow it. */
    var metadata: VoxelsMetadata

    constructor FromMetadata(connection: Connection, uuid: string, dataName: string, metadata: VoxelsMetadata)
      ensures this.connection == connection && this.uuid == uuid && this.dataName == dataName
      ensures this.metadata == metadata
    {
      this.uuid := uuid;
      this.dataName := dataName;
      this.connection := connection;
      this.metadata := metadata;
    }

    /** `__init__`: the volume's metadata is requested from the server. */
    static method Open(connection: Connection, uuid: string, dataName: string, response: Response,
                       parse: seq<byte> -> Option<VoxelsMetadata>)
      returns (r: Result<VoxelsAccessor, Error>)
      modifies connection
      ensures connection.sent == old(connection.sent) + [Request(GET, MetadataPath(uuid, dataName), "", NoBody)]
      ensures r.Success? <==> response.status == 200 && parse(response.body).Some?
      ensures r.Success? ==>
                fresh(r.value) && r.value.metadata == parse(response.body).value
                && r.value.connection == connection && r.value.uuid == uuid && r.value.dataName == dataName
    {
      var md := GetMetadata(connection, uuid, dataName, response, parse);
      if md.Failure? {
        return Failure(md.error);
      }
      var accessor := new VoxelsAccessor.FromMetadata(connection, uuid, dataName, md.value);
      r := Success(accessor);
    }

    /** `get_ndarray`, with this volume's metadata. */
    method GetNdarray(start: seq<int>, stop: seq<int>, response: Response) returns (r: Result<NdArray, Error>)
      modifies connection
      ensures var v := ValidateQueryBounds(start, stop, metadata.shape);
        (v.Failure? ==> r == Failure(v.error) && connection.sent == old(connection.sent))
        && (v.Success? ==>
              var uri := FormatSubvolumeRestUri(uuid, dataName, start, stop, "");
              connection.sent == old(connection.sent) + [Request(GET, uri, "", NoBody)]
              && r == FetchedNdarray(metadata.dtype, start, stop, uri, response))
    {
      r := Voxels.GetNdarray(connection, uuid, dataName, metadata, start, stop, response);
    }

    /** `post_ndarray`: the post, then, if the box reaches outside the known
        bounds, a fresh metadata request whose result replaces the metadata.
        A failing post or metadata request leaves the metadata as it was. */
    method PostNdarray(start: seq<int>, stop: seq<int>, newData: NdArray, response: Response,
                       metadataResponse: Response, parse: seq<byte> -> Option<VoxelsMetadata>)
      returns (r: Result<(), Error>)
      requires Valid(newData)
      modifies this, connection
      ensures var q := PostRequest(uuid, dataName, old(metadata), start, stop, newData);
        var refresh := NeedsRefresh(start, stop, old(metadata).shape, old(metadata).minindex);
        var fetched := response.status == 200 && metadataResponse.status == 200 && parse(metadataResponse.body).Some?;
        (q.Failure? ==> r == Failure(q.error) && connection.sent == old(connection.sent) && metadata == old(metadata))
        && (q.Success? && (response.status != 200 || !refresh) ==>
              connection.sent == old(connection.sent) + [q.value] && r == PostAnswer(q.value, response)
              && metadata == old(metadata))
        && (q.Success? && response.status == 200 && refresh ==>
              connection.sent == old(connection.sent) + [q.value, Request(GET, MetadataPath(uuid, dataName), "", NoBody)]
              && (r.Success? <==> fetched)
              && metadata == if fetched then parse(metadataResponse.body).value else old(metadata))
    {
      r := Voxels.PostNdarray(connection, uuid, dataName, metadata, start, stop, newData, response);
      if r.Failure? {
        return;
      }
      if NeedsRefresh(start, stop, metadata.shape, metadata.minindex) {
        var md := GetMetadata(connection, uuid, dataName, metadataResponse, parse);
        if md.Failure? {
          return Failure(md.error);
        }
        metadata := md.value;
      }
    }

    /** `__getitem__`: the dense box of the slicing is fetched over all
        channels; the answer comes with the slicing that picks the caller's
        voxels out of it. */
    method GetItem(slicing: Slicing, response: Response) returns (r: Result<(NdArray, seq<Idx>), Error>)
      modifies connection
      ensures var plan := ReadPlan(slicing, metadata.shape);
        (plan.Failure? ==> r == Failure(plan.error) && connection.sent == old(connection.sent))
        && (plan.Success? ==>
              var (start, stop, result) := plan.value;
              var v := ValidateQueryBounds(start, stop, metadata.shape);
              (v.Failure? ==> r == Failure(v.error) && connection.sent == old(connection.sent))
              && (v.Success? ==>
                    var uri := FormatSubvolumeRestUri(uuid, dataName, start, stop, "");
                    var fetched := FetchedNdarray(metadata.dtype, start, stop, uri, response);
                    connection.sent == old(connection.sent) + [Request(GET, uri, "", NoBody)]
                    && (fetched.Failure? ==> r == Failure(fetched.error))
                    && (fetched.Success? ==> r == Success((fetched.value, result)))))
    {
      var shape := metadata.shape;
      var expanded := ExpandSlicing(slicing, shape);
      if expanded.Failure? {
        return Failure(expanded.error);
      }
      var explicit := ExplicitSlicing(expanded.value, shape);
      ExpandedIsExplicit(slicing, shape);
      var split := DetermineRequestSlicings(explicit, shape);
      if split.Failure? {
        return Failure(split.error);
      }
      var (request, result) := split.value;
      var retrieved := GetNdarray(Starts(request), Stops(request), response);
      if retrieved.Failure? {
        return Failure(retrieved.error);
      }
      r := Success((retrieved.value, result));
    }

    /** `__setitem__`: only a dense box over every channel may be written,
        with exactly as many elements as the box; it is then posted. */
    method SetItem(slicing: Slicing, data: NdArray, response: Response,
                   metadataResponse: Response, parse: seq<byte> -> Option<VoxelsMetadata>)
      returns (r: Result<(), Error>)
      requires Valid(data)
      modifies this, connection
      ensures var plan := WritePlan(slicing, old(metadata).shape, data.shape);
        (plan.Failure? ==> r == Failure(plan.error) && connection.sent == old(connection.sent)
                           && metadata == old(metadata))
        && (plan.Success? ==>
              var (start, stop) := plan.value;
              var q := PostRequest(uuid, dataName, old(metadata), start, stop, data);
              var refresh := NeedsRefresh(start, stop, old(metadata).shape, old(metadata).minindex);
              var fetched := response.status == 200 && metadataResponse.status == 200
                             && parse(metadataResponse.body).Some?;
              (q.Failure? ==> r == Failure(q.error) && connection.sent == old(connection.sent)
                              && metadata == old(metadata))
              && (q.Success? && (response.status != 200 || !refresh) ==>
                    connection.sent == old(connection.sent) + [q.value] && r == PostAnswer(q.value, response)
                    && metadata == old(metadata))
              && (q.Success? && response.status == 200 && refresh ==>
                    connection.sent == old(connection.sent) + [q.value, Request(GET, MetadataPath(uuid, dataName), "", NoBody)]
                    && (r.Success? <==> fetched)
                    && metadata == if fetched then parse(metadataResponse.body).value else old(metadata)))
    {
      var box := CheckWrite(slicing, metadata.shape, data.shape);
      if box.Failure? {
        return Failure(box.error);
      }
      r := PostNdarray(box.value.0, box.value.1, data, response, metadataResponse, parse);
    }
  }
}
