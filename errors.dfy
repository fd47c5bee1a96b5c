/** The failures of the client, the codec, the metadata layer and the slicing
    helpers, as one flat set of tagged variants. Python raises these as
    AssertionError, IndexError, TypeError, ErrorResponseException,
    DvidHttpError or UnexpectedResponseError; the model returns them. */
module Errors {
  import opened NdArrays

  datatype Error =
    // an `assert` over start/stop/shape failed before any request was built
    | InvalidBounds
    // `numpy.delete` was given a channel index outside the vector
    | ChannelIndexOutOfRange
    // a write (or a pydvid read) did not cover all channels
    | PartialChannels
    // indexing an empty vector (`start[0]`, `shape[0]`, `dtypes[0]`, ...)
    | EmptyVector
    // the encoder was handed an array of another dtype than the volume's
    | WrongDType
    // the stream ended before the decode buffer was full
    | ShortRead
    // bytes were left in the response after decoding
    | ExcessData(count: nat)
    // a response that must be empty was not
    | UnexpectedBody(body: seq<byte>)
    // dvidclient's ErrorResponseException
    | ErrorResponse(action: string, status: int, reason: string, body: seq<byte>)
    // pydvid's DvidHttpError
    | DvidHttpError(action: string, status: int, reason: string, body: seq<byte>, verb: string, path: string)
    // a response body that is not JSON
    | JsonParseError
    // metadata errors
    | UnknownDType
    | HeterogeneousChannels
    | MissingChannelAxis
    | KeysShapeMismatch
    | NoTypename(dtype: DType, channels: int)
    // slicing errors
    | TooManyIndices
    | MultipleEllipsis
    | NotASlice
    | SteppedWrite
    | DataSizeMismatch
}
