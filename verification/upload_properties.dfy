/** What one Upload call promises about the remote calls it issues and the way it
    ends, stated over its trace and proved through the closed form. */
module UploadProperties {
  import opened Int32
  import opened Stream
  import opened ObjectStore
  import opened Server
  import opened UploadSpec

  /** The object key: the file name of the first message. */
  function KeyOf(stream: seq<Recv>): string
    requires Next(stream).Received?
  {
    Next(stream).req.fileName
  }

  /** The session gets as far as the `j`-th receive after the first message: the
      first message arrived, the upload was created, and every earlier receive was
      a chunk within the limit that uploaded successfully. */
  predicate Reaches(cfg: Config, oracle: Oracle, stream: seq<Recv>, j: nat)
  {
    && Next(stream).Received?
    && oracle.create.Created?
    && j <= |Rest(stream)|
    && forall i :: 0 <= i < j ==> Accepted(cfg, oracle, Rest(stream), i)
  }

  /** After the create call, the trace uploads the first `n` chunks following the
      first message, in order, under part numbers 1, 2, ..., n. */
  predicate UploadedInOrder(cfg: Config, stream: seq<Recv>, oracle: Oracle, calls: seq<Call>, n: nat)
    requires Next(stream).Received? && oracle.create.Created?
  {
    && n < |calls|
    && forall i :: 0 <= i < n ==>
         calls[i + 1] == UploadPart(cfg.bucket, KeyOf(stream), oracle.create.uploadId,
                                    PartNumber(i), ChunkAt(Rest(stream), i))
  }

  /** Some UploadPart call of the trace was answered with an error. */
  predicate SomePartFailed(calls: seq<Call>, oracle: Oracle)
  {
    exists i :: 0 <= i < |calls| && calls[i].UploadPart? && oracle.uploadPart(calls[i].partNumber).PartErr?
  }

  /** A CompleteMultipartUpload call of the trace was answered with an error. */
  predicate CompleteWasRejected(calls: seq<Call>, oracle: Oracle)
  {
    !oracle.completeOk && exists i :: 0 <= i < |calls| && calls[i].CompleteMultipartUpload?
  }

  /** Once the upload exists, the session starts with the create call and the
      uploads of the run of accepted chunks, and every upload in that run succeeded. */
  lemma SessionPrefix(cfg: Config, stream: seq<Recv>, oracle: Oracle)
    requires Next(stream).Received? && oracle.create.Created?
    ensures var s := Upload(cfg, stream, oracle);
            var n := AcceptedRun(cfg, oracle, Rest(stream), 0);
            var uploads := Uploads(cfg, KeyOf(stream), oracle.create.uploadId, Rest(stream), 0, n);
            && s == Expected(cfg, stream, oracle)
            && s.calls[..n + 1] == [CreateMultipartUpload(cfg.bucket, KeyOf(stream), VideoContentType)] + uploads
            && UploadedInOrder(cfg, stream, oracle, s.calls, n)
  {
    UploadMatchesSpec(cfg, stream, oracle);
  }

  /** When the session reaches the `j`-th receive and that receive is not accepted,
      the run of accepted chunks ends exactly there. */
  lemma RunEndsAt(cfg: Config, stream: seq<Recv>, oracle: Oracle, j: nat)
    requires Reaches(cfg, oracle, stream, j)
    requires !Accepted(cfg, oracle, Rest(stream), j)
    ensures AcceptedRun(cfg, oracle, Rest(stream), 0) == j
    ensures Next(Rest(stream)[j..]) == if j < |Rest(stream)| then Rest(stream)[j] else Eof
  {
    NextOfSuffix(Rest(stream), j);
  }

  /** A failed first receive issues no remote call at all, and a failed create
      issues nothing after it and returns the create error as is. */
  lemma CreateFailureIssuesOnlyCreate(cfg: Config, stream: seq<Recv>, oracle: Oracle)
    requires Next(stream).Received? && oracle.create.CreateErr?
    ensures Upload(cfg, stream, oracle)
         == Session([CreateMultipartUpload(cfg.bucket, KeyOf(stream), "video/mp4")],
                    Failed(CreateFailed(oracle.create.cause)))
    ensures Message(Upload(cfg, stream, oracle).outcome.error) == oracle.create.cause
  {
  }

  /** In the closed form, a complete call sits right after the run of uploads,
      follows end-of-stream, and carries the parts list of that run. */
  lemma CompleteInExpectedFrom(cfg: Config, key: string, uploadId: string, rest: seq<Recv>, oracle: Oracle, i: nat)
    requires i < |ExpectedFrom(cfg, key, uploadId, rest, oracle, 0).calls|
    requires ExpectedFrom(cfg, key, uploadId, rest, oracle, 0).calls[i].CompleteMultipartUpload?
    ensures i == AcceptedRun(cfg, oracle, rest, 0)
    ensures Next(rest[i..]) == Eof
    ensures ExpectedFrom(cfg, key, uploadId, rest, oracle, 0).calls[i].parts == PartsList(oracle, i)
  {
    var n := AcceptedRun(cfg, oracle, rest, 0);
    var uploads := Uploads(cfg, key, uploadId, rest, 0, n);
    var end := RunEnd(cfg, key, uploadId, rest, oracle, n);
    var t := ExpectedFrom(cfg, key, uploadId, rest, oracle, 0);
    assert t.calls == uploads + end.calls;
    assert t.calls[i] == end.calls[i - n];
  }

  /** In the closed form, the `i`-th call, when it is an upload, uploads the
      `i`-th chunk under part number `i + 1`. */
  lemma UploadInExpectedFrom(cfg: Config, key: string, uploadId: string, rest: seq<Recv>, oracle: Oracle, i: nat)
    requires i < |ExpectedFrom(cfg, key, uploadId, rest, oracle, 0).calls|
    requires ExpectedFrom(cfg, key, uploadId, rest, oracle, 0).calls[i].UploadPart?
    ensures i < |rest| && rest[i].Received? && |rest[i].req.chunk| <= cfg.maxChunkSize
    ensures ExpectedFrom(cfg, key, uploadId, rest, oracle, 0).calls[i]
         == UploadPart(cfg.bucket, key, uploadId, PartNumber(i), rest[i].req.chunk)
  {
    var n := AcceptedRun(cfg, oracle, rest, 0);
    var uploads := Uploads(cfg, key, uploadId, rest, 0, n);
    var end := RunEnd(cfg, key, uploadId, rest, oracle, n);
    var t := ExpectedFrom(cfg, key, uploadId, rest, oracle, 0);
    assert t.calls == uploads + end.calls;
    if i < n {
      assert Accepted(cfg, oracle, rest, i);
      assert t.calls[i] == uploads[i];
    } else {
      assert t.calls[i] == end.calls[i - n];
      NextOfSuffix(rest, n);
    }
  }

  /** A CompleteMultipartUpload call comes only after end-of-stream, and lists,
      in order, exactly the parts uploaded before it: entry `j` has the part
      number of the `j`-th upload and the ETag that upload returned. */
  lemma CompleteListsUploadedParts(cfg: Config, stream: seq<Recv>, oracle: Oracle, i: nat)
    requires i < |Upload(cfg, stream, oracle).calls|
    requires Upload(cfg, stream, oracle).calls[i].CompleteMultipartUpload?
    ensures Next(stream).Received? && oracle.create.Created? && 1 <= i <= |Rest(stream)| + 1
    ensures Reaches(cfg, oracle, stream, i - 1) && Next(Rest(stream)[i - 1..]) == Eof
    ensures UploadedInOrder(cfg, stream, oracle, Upload(cfg, stream, oracle).calls, i - 1)
    ensures var parts := Upload(cfg, stream, oracle).calls[i].parts;
            && |parts| == i - 1
            && forall j :: 0 <= j < |parts| ==>
                 && parts[j].partNumber == PartNumber(j)
                 && oracle.uploadPart(parts[j].partNumber) == PartOk(parts[j].eTag)
  {
    var s := Upload(cfg, stream, oracle);
    UploadMatchesSpec(cfg, stream, oracle);
    assert Next(stream).Received? && oracle.create.Created?;
    SessionPrefix(cfg, stream, oracle);
    var key := KeyOf(stream);
    var id := oracle.create.uploadId;
    var rest := Rest(stream);
    var t := ExpectedFrom(cfg, key, id, rest, oracle, 0);
    assert s.calls == [CreateMultipartUpload(cfg.bucket, key, VideoContentType)] + t.calls;
    assert s.calls[i] == t.calls[i - 1];
    CompleteInExpectedFrom(cfg, key, id, rest, oracle, i - 1);
    var parts := s.calls[i].parts;
    forall j | 0 <= j < |parts|
      ensures oracle.uploadPart(parts[j].partNumber) == PartOk(parts[j].eTag)
    {
      assert Accepted(cfg, oracle, rest, j);
    }
  }

  /** While the parts fit in an int32, the parts list is numbered 1, 2, ..., N. */
  lemma PartNumbersCountFromOne(cfg: Config, stream: seq<Recv>, oracle: Oracle, i: nat)
    requires i < |Upload(cfg, stream, oracle).calls|
    requires Upload(cfg, stream, oracle).calls[i].CompleteMultipartUpload?
    requires i - 1 <= MaxInt32
    ensures var parts := Upload(cfg, stream, oracle).calls[i].parts;
            forall j :: 0 <= j < |parts| ==> parts[j].partNumber as int == j + 1
  {
    CompleteListsUploadedParts(cfg, stream, oracle, i);
  }

  /** A chunk longer than the limit is not uploaded and ends the session with the
      size error; earlier chunks stay uploaded, and nothing is completed or aborted. */
  lemma OversizedChunkFailsWithoutAbort(cfg: Config, stream: seq<Recv>, oracle: Oracle, j: nat)
    requires Reaches(cfg, oracle, stream, j)
    requires j < |Rest(stream)| && Rest(stream)[j].Received?
    requires |Rest(stream)[j].req.chunk| > cfg.maxChunkSize
    ensures var s := Upload(cfg, stream, oracle);
            && s.outcome == Failed(ChunkTooLarge)
            && Message(s.outcome.error) == "chunk size exceeds maximum allowed size of bytes"
            && |s.calls| == j + 1
            && UploadedInOrder(cfg, stream, oracle, s.calls, j)
            && !HasAbort(s.calls) && NoComplete(s.calls)
  {
    SessionPrefix(cfg, stream, oracle);
    RunEndsAt(cfg, stream, oracle, j);
  }

  /** A chunk no longer than the limit, a chunk of exactly the limit included, is
      uploaded under its part number once the session reaches it. */
  lemma ChunkWithinLimitIsUploaded(cfg: Config, stream: seq<Recv>, oracle: Oracle, j: nat)
    requires Reaches(cfg, oracle, stream, j)
    requires j < |Rest(stream)| && Rest(stream)[j].Received?
    requires |Rest(stream)[j].req.chunk| <= cfg.maxChunkSize
    ensures var s := Upload(cfg, stream, oracle);
            && j + 1 < |s.calls|
            && s.calls[j + 1] == UploadPart(cfg.bucket, KeyOf(stream), oracle.create.uploadId,
                                            PartNumber(j), Rest(stream)[j].req.chunk)
  {
    SessionPrefix(cfg, stream, oracle);
    if !Accepted(cfg, oracle, Rest(stream), j) {
      RunEndsAt(cfg, stream, oracle, j);
    } else {
      var s := Upload(cfg, stream, oracle);
      var n := AcceptedRun(cfg, oracle, Rest(stream), 0);
      assert UploadedInOrder(cfg, stream, oracle, s.calls, n);
      assert j < n;
    }
  }

  /** A receive error after the first message ends the session with the receive
      error; earlier chunks stay uploaded, and nothing is completed or aborted. */
  lemma ReceiveErrorFailsWithoutAbort(cfg: Config, stream: seq<Recv>, oracle: Oracle, j: nat)
    requires Reaches(cfg, oracle, stream, j)
    requires j < |Rest(stream)| && Rest(stream)[j] == RecvErr
    ensures var s := Upload(cfg, stream, oracle);
            && s.outcome == Failed(ChunkRecvFailed)
            && Message(s.outcome.error) == "error receiving chunk"
            && |s.calls| == j + 1
            && UploadedInOrder(cfg, stream, oracle, s.calls, j)
            && !HasAbort(s.calls) && NoComplete(s.calls)
  {
    SessionPrefix(cfg, stream, oracle);
    RunEndsAt(cfg, stream, oracle, j);
  }

  /** When UploadPart fails for a part, no later part is uploaded, nothing is
      completed, the upload is aborted exactly once, and a failed abort replaces
      the upload error with the abort error. */
  lemma PartFailureAbortsOnce(cfg: Config, stream: seq<Recv>, oracle: Oracle, j: nat)
    requires Reaches(cfg, oracle, stream, j)
    requires j < |Rest(stream)| && Rest(stream)[j].Received?
    requires |Rest(stream)[j].req.chunk| <= cfg.maxChunkSize
    requires oracle.uploadPart(PartNumber(j)).PartErr?
    ensures var s := Upload(cfg, stream, oracle);
            var key := KeyOf(stream);
            var id := oracle.create.uploadId;
            && |s.calls| == j + 3
            && UploadedInOrder(cfg, stream, oracle, s.calls, j)
            && s.calls[j + 1] == UploadPart(cfg.bucket, key, id, PartNumber(j), Rest(stream)[j].req.chunk)
            && s.calls[j + 2] == AbortMultipartUpload(cfg.bucket, key, id)
            && NoComplete(s.calls)
            && s.outcome == Failed(if oracle.abortOk then UploadPartFailed else AbortFailed)
            && Message(s.outcome.error)
               == if oracle.abortOk then "unable to upload part" else "unable to abort multipart upload"
  {
    SessionPrefix(cfg, stream, oracle);
    RunEndsAt(cfg, stream, oracle, j);
  }

  /** End-of-stream after `j` uploaded chunks (none at all included) completes
      the upload with the parts list of those chunks; if completing fails, the
      upload is aborted exactly once and a failed abort replaces the error. */
  lemma EndOfStreamCompletes(cfg: Config, stream: seq<Recv>, oracle: Oracle, j: nat)
    requires Reaches(cfg, oracle, stream, j)
    requires Next(Rest(stream)[j..]) == Eof
    ensures var s := Upload(cfg, stream, oracle);
            var key := KeyOf(stream);
            var id := oracle.create.uploadId;
            && j + 1 < |s.calls|
            && UploadedInOrder(cfg, stream, oracle, s.calls, j)
            && s.calls[j + 1] == CompleteMultipartUpload(cfg.bucket, key, id, PartsList(oracle, j))
            && (j == 0 ==> s.calls[j + 1].parts == [])
            && (oracle.completeOk ==>
                  |s.calls| == j + 2 && s.outcome.Succeeded? && !HasAbort(s.calls))
            && (!oracle.completeOk ==>
                  && |s.calls| == j + 3
                  && s.calls[j + 2] == AbortMultipartUpload(cfg.bucket, key, id)
                  && s.outcome == Failed(if oracle.abortOk then CompleteFailed else AbortFailed)
                  && Message(s.outcome.error)
                     == if oracle.abortOk then "unable to complete multipart upload"
                        else "unable to abort multipart upload")
  {
    SessionPrefix(cfg, stream, oracle);
    RunEndsAt(cfg, stream, oracle, j);
  }

  /** A failed CompleteMultipartUpload is followed by exactly one abort, which
      ends the trace. */
  lemma CompleteFailureAbortsOnce(cfg: Config, stream: seq<Recv>, oracle: Oracle, i: nat)
    requires i < |Upload(cfg, stream, oracle).calls|
    requires Upload(cfg, stream, oracle).calls[i].CompleteMultipartUpload?
    requires !oracle.completeOk
    ensures var s := Upload(cfg, stream, oracle);
            && |s.calls| == i + 2
            && s.calls[i + 1] == AbortMultipartUpload(cfg.bucket, KeyOf(stream), oracle.create.uploadId)
            && s.outcome == Failed(if oracle.abortOk then CompleteFailed else AbortFailed)
  {
    CompleteListsUploadedParts(cfg, stream, oracle, i);
    EndOfStreamCompletes(cfg, stream, oracle, i - 1);
  }

  /** The session succeeds exactly when the first receive and the create succeed,
      every chunk up to end-of-stream is within the limit and uploads, and the
      complete call succeeds. */
  lemma SucceedsExactlyWhenEverythingSucceeds(cfg: Config, stream: seq<Recv>, oracle: Oracle)
    ensures Upload(cfg, stream, oracle).outcome.Succeeded?
        <==> && oracle.completeOk
             && exists n: nat :: Reaches(cfg, oracle, stream, n) && Next(Rest(stream)[n..]) == Eof
  {
    var s := Upload(cfg, stream, oracle);
    if s.outcome.Succeeded? {
      SessionPrefix(cfg, stream, oracle);
      var n := AcceptedRun(cfg, oracle, Rest(stream), 0);
      NextOfSuffix(Rest(stream), n);
      assert Reaches(cfg, oracle, stream, n);
    }
    if oracle.completeOk && exists n: nat :: Reaches(cfg, oracle, stream, n) && Next(Rest(stream)[n..]) == Eof {
      var n: nat :| Reaches(cfg, oracle, stream, n) && Next(Rest(stream)[n..]) == Eof;
      EndOfStreamCompletes(cfg, stream, oracle, n);
    }
  }

  /** A trace that opens with the create call and uploads whose parts all
      succeeded, and issues no further upload, has no failed upload. */
  lemma NoPartFailedAfterRun(calls: seq<Call>, oracle: Oracle, n: nat)
    requires n < |calls| && calls[0].CreateMultipartUpload?
    requires forall i :: 1 <= i <= n ==> calls[i].UploadPart? && oracle.uploadPart(calls[i].partNumber).PartOk?
    requires forall i :: n < i < |calls| ==> !calls[i].UploadPart?
    ensures !SomePartFailed(calls, oracle)
  {
  }

  /** The uploads of the run of accepted chunks all succeeded. */
  lemma RunUploadsSucceed(cfg: Config, stream: seq<Recv>, oracle: Oracle, n: nat)
    requires Reaches(cfg, oracle, stream, n)
    requires UploadedInOrder(cfg, stream, oracle, Upload(cfg, stream, oracle).calls, n)
    ensures var calls := Upload(cfg, stream, oracle).calls;
            forall i :: 1 <= i <= n ==> calls[i].UploadPart? && oracle.uploadPart(calls[i].partNumber).PartOk?
  {
    var calls := Upload(cfg, stream, oracle).calls;
    forall i | 1 <= i <= n
      ensures calls[i].UploadPart? && oracle.uploadPart(calls[i].partNumber).PartOk?
    {
      assert Accepted(cfg, oracle, Rest(stream), i - 1);
    }
  }

  /** The compensating abort is issued exactly when an UploadPart call or the
      CompleteMultipartUpload call of the session failed: never after a
      receive error, an oversized chunk or a failed create. */
  lemma AbortOnlyAfterRemoteFailure(cfg: Config, stream: seq<Recv>, oracle: Oracle)
    ensures var s := Upload(cfg, stream, oracle);
            HasAbort(s.calls) <==> SomePartFailed(s.calls, oracle) || CompleteWasRejected(s.calls, oracle)
  {
    var s := Upload(cfg, stream, oracle);
    if !Next(stream).Received? || oracle.create.CreateErr? {
      return;
    }
    var rest := Rest(stream);
    var n := AcceptedRun(cfg, oracle, rest, 0);
    assert Reaches(cfg, oracle, stream, n);
    assert !Accepted(cfg, oracle, rest, n);
    NextOfSuffix(rest, n);
    if n == |rest| || rest[n].Eof? {
      EndOfStreamCompletes(cfg, stream, oracle, n);
      RunUploadsSucceed(cfg, stream, oracle, n);
      if oracle.completeOk {
        NoPartFailedAfterRun(s.calls, oracle, n);
      } else {
        assert s.calls[n + 2].AbortMultipartUpload?;
        assert s.calls[n + 1].CompleteMultipartUpload?;
      }
    } else if rest[n].RecvErr? {
      ReceiveErrorFailsWithoutAbort(cfg, stream, oracle, n);
      RunUploadsSucceed(cfg, stream, oracle, n);
      NoPartFailedAfterRun(s.calls, oracle, n);
    } else if |rest[n].req.chunk| > cfg.maxChunkSize {
      OversizedChunkFailsWithoutAbort(cfg, stream, oracle, n);
      RunUploadsSucceed(cfg, stream, oracle, n);
      NoPartFailedAfterRun(s.calls, oracle, n);
    } else {
      PartFailureAbortsOnce(cfg, stream, oracle, n);
      assert s.calls[n + 2].AbortMultipartUpload?;
      assert s.calls[n + 1].UploadPart? && oracle.uploadPart(s.calls[n + 1].partNumber).PartErr?;
    }
  }

  /** Every UploadPart call of any session uploads, under the matching part
      number, a chunk received after the first message and within the limit: the
      `i`-th call uploads the `(i-1)`-th later chunk as part `i`. The first
      message's own chunk is never uploaded, and nothing is uploaded for an
      end-of-stream or a receive error. */
  lemma UploadsFollowTheStream(cfg: Config, stream: seq<Recv>, oracle: Oracle)
    ensures var s := Upload(cfg, stream, oracle);
            forall i :: 0 <= i < |s.calls| && s.calls[i].UploadPart? ==>
              && 1 <= i <= |Rest(stream)|
              && Rest(stream)[i - 1].Received?
              && |Rest(stream)[i - 1].req.chunk| <= cfg.maxChunkSize
              && s.calls[i].partNumber == PartNumber(i - 1)
              && s.calls[i].body == Rest(stream)[i - 1].req.chunk
  {
    var s := Upload(cfg, stream, oracle);
    if !Next(stream).Received? || oracle.create.CreateErr? {
      return;
    }
    UploadMatchesSpec(cfg, stream, oracle);
    var key := KeyOf(stream);
    var id := oracle.create.uploadId;
    var rest := Rest(stream);
    var t := ExpectedFrom(cfg, key, id, rest, oracle, 0);
    assert s.calls == [CreateMultipartUpload(cfg.bucket, key, VideoContentType)] + t.calls;
    forall i | 0 <= i < |s.calls| && s.calls[i].UploadPart?
      ensures 1 <= i <= |rest| && rest[i - 1].Received? && |rest[i - 1].req.chunk| <= cfg.maxChunkSize
      ensures s.calls[i].partNumber == PartNumber(i - 1)
      ensures s.calls[i].body == rest[i - 1].req.chunk
    {
      assert s.calls[i] == t.calls[i - 1];
      UploadInExpectedFrom(cfg, key, id, rest, oracle, i - 1);
    }
  }

  /** An empty file name is not rejected: the upload is created under the empty key. */
  lemma EmptyFileNameIsNotRejected(cfg: Config, stream: seq<Recv>, oracle: Oracle)
    requires Next(stream).Received? && Next(stream).req.fileName == ""
    ensures Upload(cfg, stream, oracle).calls[0] == CreateMultipartUpload(cfg.bucket, "", "video/mp4")
    ensures Upload(cfg, stream, oracle).outcome != Failed(InitialRecvFailed)
  {
  }
}
