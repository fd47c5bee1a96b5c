/** What the client and the mock server see of HTTP: requests and responses as
    values, a connection that records the requests issued on it, and the byte
    streams the codec reads from and writes to. */
module Http {
  import opened NdArrays
  import opened Schema

  datatype Method = GET | POST

  function MethodName(m: Method): string
  {
    match m
    case GET => "GET"
    case POST => "POST"
  }

  datatype Body = NoBody | Raw(bytes: seq<byte>) | JsonDocument(doc: Metadata)

  datatype Request = Request(verb: Method, path: string, contentType: string, body: Body)

  /** A server's answer: status code, reason phrase and body bytes. */
  datatype Response = Response(status: int, reason: string, body: seq<byte>)

  /** A persistent connection; `sent` lists the requests issued on it, in order. */
  class Connection {
    var sent: seq<Request>

    constructor()
      ensures sent == []
    {
      sent := [];
    }

    method Send(r: Request)
      modifies this
      ensures sent == old(sent) + [r]
    {
      sent := sent + [r];
    }
  }

  function Min(a: nat, b: nat): nat { if a < b then a else b }

  /** A response body (or a StringIO) being read from the front. */
  class InputStream {
    const content: seq<byte>
    var pos: nat

    ghost predicate Valid()
      reads this
    {
      pos <= |content|
    }

    /** The bytes not read yet. */
    function Rest(): seq<byte>
      reads this
      requires Valid()
    {
      content[pos..]
    }

    constructor(content: seq<byte>)
      ensures Valid() && this.content == content && Rest() == content
    {
      this.content := content;
      pos := 0;
    }

    /** `read(n)`: the next `n` bytes, or all that are left if fewer. */
    method Read(n: nat) returns (chunk: seq<byte>)
      requires Valid()
      modifies this
      ensures Valid()
      ensures chunk == old(Rest())[..Min(n, |old(Rest())|)]
      ensures Rest() == old(Rest())[|chunk|..]
    {
      var stop := pos + Min(n, |content| - pos);
      chunk := content[pos..stop];
      pos := stop;
    }

    /** `read()`: everything that is left. */
    method ReadAll() returns (rest: seq<byte>)
      requires Valid()
      modifies this
      ensures Valid()
      ensures rest == old(Rest()) && Rest() == []
    {
      rest := content[pos..];
      pos := |content|;
    }
  }

  /** `buf[start:start + n] = stream.read(n)`: numpy accepts the assignment
      only if the read returned exactly n bytes. */
  method ReadIntoSlice(buf: array<byte>, start: nat, n: nat, stream: InputStream) returns (ok: bool)
    requires stream.Valid() && start + n <= buf.Length
    modifies buf, stream
    ensures stream.Valid()
    ensures ok <==> n <= |old(stream.Rest())|
    ensures ok ==> buf[..start] == old(buf[..start]) && buf[start..start + n] == old(stream.Rest())[..n]
                   && stream.Rest() == old(stream.Rest())[n..]
    ensures !ok ==> stream.Rest() == []
  {
    var chunk := stream.Read(n);
    if |chunk| != n {
      return false;
    }
    forall i | 0 <= i < n {
      buf[start + i] := chunk[i];
    }
    ok := true;
  }

  /** The concatenation of written chunks. */
  function Flatten(chunks: seq<seq<byte>>): seq<byte>
  {
    if |chunks| == 0 then [] else chunks[0] + Flatten(chunks[1..])
  }

  lemma {:induction false} FlattenAppend(a: seq<seq<byte>>, b: seq<seq<byte>>)
    ensures Flatten(a + b) == Flatten(a) + Flatten(b)
  {
    if |a| > 0 {
      assert (a + b)[1..] == a[1..] + b;
      FlattenAppend(a[1..], b);
    } else {
      assert a + b == b;
    }
  }

  /** A StringIO being written, or the server's `wfile`; `chunks` lists the
      `write` calls in order. */
  class OutputStream {
    var chunks: seq<seq<byte>>

    function Value(): seq<byte>
      reads this
    {
      Flatten(chunks)
    }

    constructor()
      ensures chunks == []
    {
      chunks := [];
    }

    method Write(data: seq<byte>)
      modifies this
      ensures chunks == old(chunks) + [data]
    {
      chunks := chunks + [data];
    }
  }
}
