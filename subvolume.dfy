/** Coordinate vectors of a subvolume request, shared by both client
    generations and the mock server: bounds checks, the `stop - start` box,
    dropping the channel entry, the `dims` segment of the REST path and the
    volume-creation path. */
module Subvolumes {
  import opened Wrappers
  import opened Text
  import opened Errors

  /** The five assertions of the path formatters: equal lengths, then
      elementwise `start < stop`, `start >= 0`, `start < shape` and
      `stop <= shape`. */
  predicate ValidBounds(shape: seq<int>, start: seq<int>, stop: seq<int>): (b: bool)
    ensures b ==> |start| == |stop| == |shape|
                  && forall k :: 0 <= k < |shape| ==> 1 <= stop[k] - start[k] <= shape[k]
  {
    |start| == |stop| == |shape|
    && (forall k :: 0 <= k < |start| ==> start[k] < stop[k])
    && (forall k :: 0 <= k < |start| ==> start[k] >= 0)
    && (forall k :: 0 <= k < |start| ==> start[k] < shape[k])
    && (forall k :: 0 <= k < |stop| ==> stop[k] <= shape[k])
  }

  /** `stop - start`, elementwise. */
  function Extents(start: seq<int>, stop: seq<int>): (r: seq<int>)
    requires |start| == |stop|
    ensures |r| == |start|
  {
    seq(|start|, k requires 0 <= k < |start| => stop[k] - start[k])
  }

  /** The box `stop - start` of a non-empty request, as array extents. */
  function RoiShape(start: seq<int>, stop: seq<int>): (r: seq<nat>)
    requires |start| == |stop| && forall k :: 0 <= k < |start| ==> start[k] < stop[k]
    ensures r == Extents(start, stop)
    ensures forall k :: 0 <= k < |r| ==> r[k] > 0
  {
    seq(|start|, k requires 0 <= k < |start| => stop[k] - start[k])
  }

  /** `numpy.delete(s, i)` for an index already brought into range: the other
      entries, in their order. */
  function RemoveAt(s: seq<int>, i: nat): (r: seq<int>)
    requires i < |s|
    ensures |r| == |s| - 1
    ensures forall k :: 0 <= k < i ==> r[k] == s[k]
    ensures forall k :: i <= k < |r| ==> r[k] == s[k + 1]
  {
    s[..i] + s[i + 1..]
  }

  /** Python's reading of a possibly negative index into a vector of length n. */
  function NormalIndex(i: int, n: nat): (r: nat)
    requires -(n as int) <= i < n
    ensures r < n && (r == i || r == i + n)
  {
    if i < 0 then i + n else i
  }

  /** `"_".join(map(str, range(k)))`: the axis list `0_1_..._(k-1)`. */
  function Dims(k: nat): string
  {
    JoinInts(Range(k))
  }

  /** Dropping the first entry of a valid request keeps the remaining boxes
      positive and in bounds. */
  lemma RemoveFirstKeepsBounds(shape: seq<int>, start: seq<int>, stop: seq<int>)
    requires ValidBounds(shape, start, stop) && |shape| >= 1
    ensures ValidBounds(shape[1..], RemoveAt(start, 0), RemoveAt(stop, 0))
    ensures RemoveAt(start, 0) == start[1..] && RemoveAt(stop, 0) == stop[1..]
  {
  }

  /** The two assertions that a write (or any pydvid request) covers every
      channel: `start[0] == 0`, then `stop[0] == shape[0]`; indexing an empty
      vector fails first. */
  function FullChannelCheck(start: seq<int>, stop: seq<int>, shape: seq<int>): (r: Result<(), Error>)
    ensures r.Success? <==> |start| >= 1 && |stop| >= 1 && |shape| >= 1 && start[0] == 0 && stop[0] == shape[0]
    ensures |start| >= 1 && |stop| >= 1 && |shape| >= 1 && r.Failure? ==> r == Failure(PartialChannels)
    ensures |start| == 0 ==> r == Failure(EmptyVector)
  {
    if |start| == 0 then Failure(EmptyVector)
    else if start[0] != 0 then Failure(PartialChannels)
    else if |stop| == 0 || |shape| == 0 then Failure(EmptyVector)
    else if stop[0] != shape[0] then Failure(PartialChannels)
    else Success(())
  }

  /** The path a new volume is created at, in both client generations. */
  function CreateVolumePath(uuid: string, typename: string, dataName: string): string
  {
    "/api/dataset/" + uuid + "/new/" + typename + "/" + dataName
  }
}
