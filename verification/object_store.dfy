/** The four S3 multipart-upload operations the server issues, recorded as a
    trace of calls, and the outcomes the remote store answers them with. */
module ObjectStore {
  import opened Int32
  import opened Stream

  /** One entry of the parts list given to CompleteMultipartUpload. */
  datatype CompletedPart = CompletedPart(eTag: string, partNumber: int32)

  /** One remote call, with the arguments the server passes. */
  datatype Call =
    | CreateMultipartUpload(bucket: string, key: string, contentType: string)
    | UploadPart(bucket: string, key: string, uploadId: string, partNumber: int32, body: seq<byte>)
    | CompleteMultipartUpload(bucket: string, key: string, uploadId: string, parts: seq<CompletedPart>)
    | AbortMultipartUpload(bucket: string, key: string, uploadId: string)

  datatype CreateResult = Created(uploadId: string) | CreateErr(cause: string)

  datatype PartResult = PartOk(eTag: string) | PartErr

  /** The remote store's answers: the create result, the UploadPart result for
      each part number, and whether Complete and Abort succeed. */
  datatype Oracle = Oracle(
    create: CreateResult,
    uploadPart: int32 -> PartResult,
    completeOk: bool,
    abortOk: bool)

  /** A call that acts on the already-created upload `uploadId` of `key` in `bucket`. */
  predicate ForUpload(c: Call, bucket: string, key: string, uploadId: string)
  {
    && !c.CreateMultipartUpload?
    && c.bucket == bucket && c.key == key && c.uploadId == uploadId
  }

  /** Some call of the trace aborts the upload. */
  predicate HasAbort(calls: seq<Call>)
  {
    exists i :: 0 <= i < |calls| && calls[i].AbortMultipartUpload?
  }

  /** Abort, if issued at all, is issued once and as the last call of the trace. */
  predicate AbortOnlyLast(calls: seq<Call>)
  {
    forall i :: 0 <= i < |calls| - 1 ==> !calls[i].AbortMultipartUpload?
  }

  /** No call of the trace completes the upload. */
  predicate NoComplete(calls: seq<Call>)
  {
    forall i :: 0 <= i < |calls| ==> !calls[i].CompleteMultipartUpload?
  }
}
