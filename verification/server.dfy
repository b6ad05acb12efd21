/** The Upload handler of the video-upload gRPC service: it streams the client's
    chunks into one S3 multipart upload and compensates failures with an abort.
    The gRPC stream and the S3 client are replaced by the receive sequence and the
    remote-store oracle, so one call of the handler is a pure function from those
    to the trace of remote calls and the terminal outcome. */
module Server {
  import opened Int32
  import opened Stream
  import opened ObjectStore

  /** Process configuration: the S3_VIDEO_BUCKET_NAME and REGION environment
      variables and config.MAX_CHUNK_SIZE. */
  datatype Config = Config(bucket: string, region: string, maxChunkSize: nat)

  const VideoContentType: string := "video/mp4"

  /** The errors the handler returns, one per distinct return site. */
  datatype UploadError =
    | InitialRecvFailed        // the first receive failed
    | CreateFailed(cause: string)  // CreateMultipartUpload's own error, returned as is
    | ChunkRecvFailed          // a later receive failed with something other than EOF
    | ChunkTooLarge            // a chunk is longer than the configured maximum
    | UploadPartFailed         // UploadPart failed and the abort succeeded
    | CompleteFailed           // CompleteMultipartUpload failed and the abort succeeded
    | AbortFailed              // the compensating abort failed; the original cause is dropped

  /** The text of the error the RPC fails with. */
  function Message(e: UploadError): string
  {
    match e
    case InitialRecvFailed => "error receiving initial request"
    case CreateFailed(cause) => cause
    case ChunkRecvFailed => "error receiving chunk"
    case ChunkTooLarge => "chunk size exceeds maximum allowed size of bytes"
    case UploadPartFailed => "unable to upload part"
    case CompleteFailed => "unable to complete multipart upload"
    case AbortFailed => "unable to abort multipart upload"
  }

  /** The VideoUploadResponse sent on success. */
  datatype UploadResponse = UploadResponse(status: string, url: string, fileName: string)

  datatype Outcome = Succeeded(response: UploadResponse) | Failed(error: UploadError)

  /** The remote calls one handler invocation issues, in order, and how it ends. */
  datatype Session = Session(calls: seq<Call>, outcome: Outcome)

  /** The public URL of object `key` in the configured bucket and region: an
      https URL on the bucket's virtual host whose path is the key. */
  function ObjectUrl(cfg: Config, key: string): (url: string)
    ensures |url| > |key| + |cfg.bucket| + 8
    ensures url[..8] == "https://" && url[8..8 + |cfg.bucket|] == cfg.bucket
    ensures url[|url| - |key| - 1..] == "/" + key
  {
    "https://" + cfg.bucket + ".s3." + cfg.region + ".amazonaws.com/" + key
  }

  /** The error texts tell the fixed error kinds apart: only the create error,
      whose text is the S3 client's, can share a text with another kind. */
  lemma MessagesIdentifyErrors(e1: UploadError, e2: UploadError)
    requires !e1.CreateFailed? && !e2.CreateFailed?
    requires Message(e1) == Message(e2)
    ensures e1 == e2
  {
  }

  /** Distinct keys get distinct URLs, so the URL identifies the uploaded object. */
  lemma ObjectUrlDeterminesKey(cfg: Config, k1: string, k2: string)
    requires ObjectUrl(cfg, k1) == ObjectUrl(cfg, k2)
    ensures k1 == k2
  {
    var prefix := "https://" + cfg.bucket + ".s3." + cfg.region + ".amazonaws.com/";
    assert ObjectUrl(cfg, k1) == prefix + k1;
    assert ObjectUrl(cfg, k2) == prefix + k2;
    assert (prefix + k1)[|prefix|..] == k1;
    assert (prefix + k2)[|prefix|..] == k2;
  }

  function Prepend(calls: seq<Call>, s: Session): Session
  {
    Session(calls + s.calls, s.outcome)
  }

  /** The compensation step: one abort of the upload. When the abort itself fails,
      its error replaces `cause`. */
  function Compensate(cfg: Config, key: string, uploadId: string, oracle: Oracle, cause: UploadError): (s: Session)
    requires cause == UploadPartFailed || cause == CompleteFailed
    ensures |s.calls| == 1 && s.calls[0].AbortMultipartUpload?
    ensures ForUpload(s.calls[0], cfg.bucket, key, uploadId)
    ensures s.outcome.Failed? && (s.outcome.error == cause <==> oracle.abortOk)
    ensures Message(s.outcome.error)
         == if oracle.abortOk then Message(cause) else "unable to abort multipart upload"
  {
    Session([AbortMultipartUpload(cfg.bucket, key, uploadId)],
            Failed(if oracle.abortOk then cause else AbortFailed))
  }

  /** After end-of-stream: complete the upload with the collected parts, abort if
      that fails, and otherwise answer with the object's location. */
  function Finish(cfg: Config, key: string, uploadId: string, parts: seq<CompletedPart>, oracle: Oracle): (s: Session)
    ensures |s.calls| > 0 && s.calls[0] == CompleteMultipartUpload(cfg.bucket, key, uploadId, parts)
    ensures s.outcome.Succeeded? <==> oracle.completeOk
    ensures s.outcome.Succeeded? ==>
      && |s.calls| == 1
      && s.outcome.response == UploadResponse(
           "success", "https://" + cfg.bucket + ".s3." + cfg.region + ".amazonaws.com/" + key, key)
    ensures s.outcome.Failed? ==>
      && |s.calls| == 2
      && s.calls[1] == AbortMultipartUpload(cfg.bucket, key, uploadId)
      && Message(s.outcome.error)
         == if oracle.abortOk then "unable to complete multipart upload" else "unable to abort multipart upload"
  {
    var complete := CompleteMultipartUpload(cfg.bucket, key, uploadId, parts);
    if oracle.completeOk then
      Session([complete], Succeeded(UploadResponse("success", ObjectUrl(cfg, key), key)))
    else
      Prepend([complete], Compensate(cfg, key, uploadId, oracle, CompleteFailed))
  }

  /** The receive loop: `partNumber` is the number the next chunk is uploaded
      under and `parts` the parts uploaded so far. */
  function ReceiveParts(cfg: Config, key: string, uploadId: string, stream: seq<Recv>, oracle: Oracle,
                        partNumber: int32, parts: seq<CompletedPart>): (s: Session)
    ensures forall i :: 0 <= i < |s.calls| ==> ForUpload(s.calls[i], cfg.bucket, key, uploadId)
    ensures AbortOnlyLast(s.calls)
    ensures s.outcome.Succeeded? ==>
      && |s.calls| > 0 && s.calls[|s.calls| - 1].CompleteMultipartUpload?
      && !HasAbort(s.calls)
      && s.outcome.response == UploadResponse("success", ObjectUrl(cfg, key), key)
    ensures s.outcome.Failed? ==> !s.outcome.error.InitialRecvFailed? && !s.outcome.error.CreateFailed?
    decreases |stream|
  {
    match Next(stream)
    case Eof => Finish(cfg, key, uploadId, parts, oracle)
    case RecvErr => Session([], Failed(ChunkRecvFailed))
    case Received(req) =>
      if |req.chunk| > cfg.maxChunkSize then
        Session([], Failed(ChunkTooLarge))
      else
        var call := UploadPart(cfg.bucket, key, uploadId, partNumber, req.chunk);
        match oracle.uploadPart(partNumber)
        case PartErr =>
          Prepend([call], Compensate(cfg, key, uploadId, oracle, UploadPartFailed))
        case PartOk(eTag) =>
          Prepend([call], ReceiveParts(cfg, key, uploadId, Rest(stream), oracle, Inc(partNumber),
                                       parts + [CompletedPart(eTag, partNumber)]))
  }

  /** One Upload RPC: receive the first message, create the multipart upload for
      its file name, then run the receive loop from part number 1. */
  function Upload(cfg: Config, stream: seq<Recv>, oracle: Oracle): (s: Session)
    ensures s.calls == [] <==> !Next(stream).Received?
    ensures s.outcome == Failed(InitialRecvFailed) <==> !Next(stream).Received?
    ensures Next(stream).Received? ==>
      && s.calls[0] == CreateMultipartUpload(cfg.bucket, Next(stream).req.fileName, "video/mp4")
      && forall i :: 1 <= i < |s.calls| ==>
           oracle.create.Created?
           && ForUpload(s.calls[i], cfg.bucket, Next(stream).req.fileName, oracle.create.uploadId)
    ensures AbortOnlyLast(s.calls)
    ensures s.outcome.Succeeded? ==>
      && Next(stream).Received?
      && s.outcome.response == UploadResponse(
           "success",
           "https://" + cfg.bucket + ".s3." + cfg.region + ".amazonaws.com/" + Next(stream).req.fileName,
           Next(stream).req.fileName)
      && s.calls[|s.calls| - 1].CompleteMultipartUpload?
      && !HasAbort(s.calls)
  {
    match Next(stream)
    case Eof => Session([], Failed(InitialRecvFailed))
    case RecvErr => Session([], Failed(InitialRecvFailed))
    case Received(first) =>
      var key := first.fileName;
      var create := CreateMultipartUpload(cfg.bucket, key, VideoContentType);
      match oracle.create
      case CreateErr(cause) => Session([create], Failed(CreateFailed(cause)))
      case Created(uploadId) => Prepend([create], ReceiveParts(cfg, key, uploadId, Rest(stream), oracle, 1, []))
  }
}
