/** The inbound client stream of one Upload call. Each receive yields a request
    message, the end of the stream, or a transport error. */
module Stream {

  newtype byte = x: int | 0 <= x < 256

  /** One VideoUploadRequest message. Every message carries both fields; only the
      first message's file name and only the later messages' chunks are used. */
  datatype Request = Request(fileName: string, chunk: seq<byte>)

  /** The result of one `stream.Recv()`. */
  datatype Recv =
    | Received(req: Request)
    | Eof       // io.EOF: the client closed its side cleanly
    | RecvErr   // any other receive error

  /** The next receive on a stream given as the finite sequence of its receive
      results. Once the sequence is used up the stream stays at end-of-stream, as
      a gRPC stream keeps returning io.EOF after the client closes it. */
  function Next(s: seq<Recv>): Recv
  {
    if |s| == 0 then Eof else s[0]
  }

  /** The stream after one receive. */
  function Rest(s: seq<Recv>): seq<Recv>
  {
    if |s| == 0 then [] else s[1..]
  }

  /** The `j`-th receive of a stream is what the stream's suffix from `j` yields next. */
  lemma NextOfSuffix(s: seq<Recv>, j: nat)
    requires j <= |s|
    ensures Next(s[j..]) == if j < |s| then s[j] else Eof
  {
  }
}
