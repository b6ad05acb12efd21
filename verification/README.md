# Streamed multipart upload of the video-upload service, in Dafny

This project models the `Upload` handler of the video-upload gRPC service
(`server/server.go`). The handler receives a client-streamed sequence of
messages and assembles the chunks into one S3 object through the S3
multipart-upload protocol. It does the following:

- It takes the object key from the first message's file name.
- It creates the multipart upload.
- It uploads every later chunk as the next numbered part.
- On end-of-stream it completes the upload with the ordered parts list and
  answers with the object's URL.
- When UploadPart or CompleteMultipartUpload fails, it aborts the upload.

One call of the handler is modelled as a pure function `Server.Upload`. It takes:

- the configuration (bucket, region, maximum chunk size);
- the stream, as the finite sequence of its receive results (`Received(request)`,
  `Eof` or `RecvErr`). The first element is the first receive. Once the
  sequence is used up, the stream stays at end-of-stream;
- an `Oracle` holding the remote store's answers: the create result (an upload
  id or an error), the UploadPart result for each part number (an ETag or an
  error), and whether Complete and Abort succeed.

It returns a `Session`: the trace of remote calls issued, with their arguments,
and the outcome. The outcome is either the success response or the error the
RPC fails with. Go's `int32` part counter is modelled with its wrap-around
(`Int32.Wrap`, `Int32.Inc`).

Modules:

- `Int32` (`int32.dfy`) holds Go's int32 arithmetic.
- `Stream` (`stream.dfy`) holds the request messages and the receive results.
- `ObjectStore` (`object_store.dfy`) holds the four S3 calls, their results and
  the oracle.
- `Server` (`server.dfy`) holds the handler: `Upload`, the receive loop
  `ReceiveParts`, the completion step `Finish`, and the compensation step
  `Compensate`.
- `UploadSpec` (`upload_spec.dfy`) gives a closed form of the whole session with
  no loop in it. The closed form first counts the run of chunks that are within
  the limit and upload successfully. The event that ends that run then decides
  the rest of the session. `UploadMatchesSpec` proves the handler equal to this
  closed form on every input.
- `UploadProperties` (`upload_properties.dfy`) holds the promises about part
  numbering, ordering, sessions, aborts, errors and success, each proved through
  the closed form.

Behaviour of the code that the model keeps as written:

- No abort follows an oversized chunk or a receive error after the first
  message, although failed UploadPart and CompleteMultipartUpload calls are
  compensated. The multipart upload is left open in those two cases.
- When the compensating abort fails, the handler returns only
  "unable to abort multipart upload". The error that triggered the abort is
  not reported.
- An empty file name is not rejected. The upload is created under the empty key.
- The chunk carried by the first message is never uploaded.
- A failed create returns the S3 client's own error unchanged (`CreateFailed(cause)`).
  No fixed message is used.

## Model

| member | source | states |
|---|---|---|
| Int32.Inc | server/server.go:127 | `partNumber++` on an int32 yields the int32 congruent to partNumber + 1 modulo 2^32, so it wraps from the maximum to the minimum |
| Int32.IncWrap | server/server.go:81 | counting parts with `++` from `int32(1)` gives the 1-based index wrapped to int32 |
| Server.ReceiveParts | server/server.go:83-150 | every call the loop issues acts on the same bucket, key and upload id; abort is issued at most once and only as the last call; success ends with a Complete call, has no abort, and answers "success" with the object URL and key |
| Server.Upload | server/server.go:56-155 | no remote call is issued exactly when the first receive fails, and then the error is the initial-receive error; the first call creates the upload for the first message's file name with content type video/mp4; every later call uses that bucket, key and the created upload id; abort is issued at most once per session; success answers `{success, https://<bucket>.s3.<region>.amazonaws.com/<key>, key}` after a final Complete call |
| Server.MessagesIdentifyErrors | server/server.go:63-149 | `Message` gives each error the text of its return site; two errors other than the create error that have the same text are the same error |
| Server.ObjectUrl | server/server.go:151 | the success URL is an https URL that starts with the bucket name and whose path is the key |
| Server.Compensate | server/server.go:106-118 | the compensation step (also used at lines 138-150) issues one abort for the same bucket, key and upload id; the triggering error is kept exactly when the abort succeeds, and otherwise the text is "unable to abort multipart upload" |
| Server.Finish | server/server.go:130-154 | completion issues Complete with the collected parts first; it succeeds exactly when Complete succeeds, answering `{success, https://<bucket>.s3.<region>.amazonaws.com/<key>, key}`; otherwise exactly one abort follows, and the text is the complete error or the abort error |
| Server.ObjectUrlDeterminesKey | server/server.go:151 | two keys with the same object URL are equal |
| UploadSpec.AcceptedRun | server/server.go:83-128 | the loop runs over chunks that are within the limit and upload successfully; the run ends at the first receive that is not such a chunk |
| UploadSpec.ReceivePartsMatchesSpec | server/server.go:80-150 | the receive loop entered at any chunk, with the matching part number and parts list, equals the closed form |
| UploadSpec.UploadMatchesSpec | server/server.go:56-155 | the handler equals the closed form on every configuration, stream and set of remote answers |
| UploadProperties.CreateFailureIssuesOnlyCreate | server/server.go:68-75 | a failed create issues no UploadPart, Complete or Abort call, and returns the create error unchanged |
| UploadProperties.CompleteListsUploadedParts | server/server.go:99-137 | Complete is called only after end-of-stream; its parts list has one entry per uploaded chunk, in order; entry j carries the part number of the j-th upload and the ETag that upload returned |
| UploadProperties.PartNumbersCountFromOne | server/server.go:80-81 | while fewer than 2^31 parts are uploaded, the parts list is numbered exactly 1..N |
| UploadProperties.OversizedChunkFailsWithoutAbort | server/server.go:94-97 | a chunk longer than the limit is not uploaded; earlier chunks stay uploaded; neither Complete nor Abort follows; the error is the chunk-size error |
| UploadProperties.ChunkWithinLimitIsUploaded | server/server.go:94-105 | a chunk of at most the limit, exactly the limit included, is uploaded under its part number once the session reaches it |
| UploadProperties.ReceiveErrorFailsWithoutAbort | server/server.go:84-92 | a receive error after the first message ends the session with "error receiving chunk"; earlier chunks stay uploaded; neither Complete nor Abort follows |
| UploadProperties.PartFailureAbortsOnce | server/server.go:99-118 | when UploadPart fails for part k, no later part is uploaded and Complete is not called; Abort is issued exactly once; the error is the abort error if the abort fails and the upload error otherwise |
| UploadProperties.EndOfStreamCompletes | server/server.go:83-88 | end-of-stream after j uploaded chunks calls Complete with those j parts, an empty list for zero chunks; success follows if Complete succeeds; otherwise one abort follows, and the error is the abort error or the complete error |
| UploadProperties.CompleteFailureAbortsOnce | server/server.go:138-150 | a failed Complete is followed by exactly one abort, which ends the trace; the error is the abort error if the abort fails and the complete error otherwise |
| UploadProperties.SucceedsExactlyWhenEverythingSucceeds | server/server.go:130-154 | the session succeeds if and only if the first receive and the create succeed, every chunk up to end-of-stream is within the limit and uploads, and Complete succeeds |
| UploadProperties.AbortOnlyAfterRemoteFailure | server/server.go:106-146 | an abort is issued if and only if an UploadPart call or the Complete call of the session failed |
| UploadProperties.UploadsFollowTheStream | server/server.go:61-105 | the i-th call, when it is an UploadPart, uploads as part i the (i-1)-th receive after the first message, which is a received chunk within the limit; the first message's chunk is never uploaded, and nothing is uploaded for an end-of-stream or a receive error |
| UploadProperties.EmptyFileNameIsNotRejected | server/server.go:66-72 | an empty file name still creates an upload, under the empty key |

## Left out

- `init` and `main` in `server/server.go` are left out. They load the
  environment, build the AWS client, listen on TCP and register the gRPC server.
  This is process plumbing. The bucket, the region and the maximum chunk size
  become fields of `Server.Config`.
- The `config` package that defines `MAX_CHUNK_SIZE` is not part of this model.
  The limit is a `nat` parameter.
- `aws/client.go` (the S3 client singleton) and `logger/logger.go` are left out,
  and so is every logging call inside `Upload`. Apart from the nil pointers
  named in the next item, a logging call does not change what the handler does.
- The gRPC stream and the S3 SDK become the receive sequence and the `Oracle`.
  The oracle's UploadPart answer depends only on the part number, not on the
  body. `context.TODO()`, `bytes.NewReader` and the `aws.String`/`aws.Int32`
  pointer wrapping are not modelled.
- The upload id returned by a successful create and the ETag returned by a
  successful UploadPart are taken to be non-nil. The log calls at
  `server/server.go:78` and `:119` dereference these pointers, and a nil one
  would make the handler panic. The model has no panic outcome.
- The cause of a receive error is not modelled, because the handler discards it.
- `stream.SendAndClose` is modelled as the success response. A failure of that
  send is not modelled.
- The commented-out presigned-URL helper is dead code and is left out.
- Two independent sessions fed the same chunks are not compared by a lemma.
  `Upload` is a function, so equal inputs give equal sessions by construction.
- PartNumbersCountFromOne: the claim "numbered 1..N" is stated only while N is at
  most 2^31 - 1. Beyond that, Go's int32 counter wraps to negative numbers. The
  wrap itself is modelled and covered by `CompleteListsUploadedParts`.
