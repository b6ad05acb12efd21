/** A closed-form description of what one Upload call does, stated without the
    receive loop: the run of chunks that are received, within the size limit and
    uploaded successfully is counted first, and the event that ends that run
    decides the rest of the session. `UploadMatchesSpec` proves the handler
    equal to it on every input. */
module UploadSpec {
  import opened Int32
  import opened Stream
  import opened ObjectStore
  import opened Server

  /** The part number the `j`-th chunk after the first message (counting from 0)
      is uploaded under: Go's int32 counter started at 1. */
  function PartNumber(j: int): int32
  {
    Wrap(j + 1)
  }

  /** The payload of the `j`-th receive, or nothing when it carries none. */
  function ChunkAt(rest: seq<Recv>, j: int): seq<byte>
  {
    if 0 <= j < |rest| && rest[j].Received? then rest[j].req.chunk else []
  }

  function ETagOf(r: PartResult): string
  {
    if r.PartOk? then r.eTag else ""
  }

  /** The `j`-th receive after the first message is a chunk within the size limit
      whose UploadPart succeeds. */
  predicate Accepted(cfg: Config, oracle: Oracle, rest: seq<Recv>, j: int)
  {
    && 0 <= j < |rest|
    && rest[j].Received?
    && |rest[j].req.chunk| <= cfg.maxChunkSize
    && oracle.uploadPart(PartNumber(j)).PartOk?
  }

  /** The end of the run of accepted receives that starts at `from`. */
  function AcceptedRun(cfg: Config, oracle: Oracle, rest: seq<Recv>, from: nat): (n: nat)
    requires from <= |rest|
    ensures from <= n <= |rest|
    ensures forall j :: from <= j < n ==> Accepted(cfg, oracle, rest, j)
    ensures !Accepted(cfg, oracle, rest, n)
    decreases |rest| - from
  {
    if Accepted(cfg, oracle, rest, from) then AcceptedRun(cfg, oracle, rest, from + 1) else from
  }

  /** The UploadPart calls for chunks `from` up to `to` (exclusive). */
  function Uploads(cfg: Config, key: string, uploadId: string, rest: seq<Recv>, from: int, to: int): seq<Call>
    requires from <= to
  {
    seq(to - from, i => UploadPart(cfg.bucket, key, uploadId, PartNumber(from + i), ChunkAt(rest, from + i)))
  }

  /** The parts list after the first `n` chunks were uploaded. */
  function PartsList(oracle: Oracle, n: nat): seq<CompletedPart>
  {
    seq(n, i => CompletedPart(ETagOf(oracle.uploadPart(PartNumber(i))), PartNumber(i)))
  }

  /** What follows a run of `n` uploaded chunks, decided by the receive that ends it. */
  function RunEnd(cfg: Config, key: string, uploadId: string, rest: seq<Recv>, oracle: Oracle, n: nat): Session
    requires n <= |rest|
  {
    var abort := AbortMultipartUpload(cfg.bucket, key, uploadId);
    match Next(rest[n..])
    case Eof =>
      var complete := CompleteMultipartUpload(cfg.bucket, key, uploadId, PartsList(oracle, n));
      if oracle.completeOk then
        Session([complete], Succeeded(UploadResponse("success", ObjectUrl(cfg, key), key)))
      else
        Session([complete, abort], Failed(if oracle.abortOk then CompleteFailed else AbortFailed))
    case RecvErr => Session([], Failed(ChunkRecvFailed))
    case Received(req) =>
      if |req.chunk| > cfg.maxChunkSize then
        Session([], Failed(ChunkTooLarge))
      else
        Session([UploadPart(cfg.bucket, key, uploadId, PartNumber(n), req.chunk), abort],
                Failed(if oracle.abortOk then UploadPartFailed else AbortFailed))
  }

  /** The session from the `k`-th receive after the first message on, once the
      upload `uploadId` exists and the first `k` chunks are uploaded: the uploads
      of the run of accepted chunks, then what ends the run. */
  function ExpectedFrom(cfg: Config, key: string, uploadId: string, rest: seq<Recv>, oracle: Oracle, k: nat): Session
    requires k <= |rest|
  {
    var n := AcceptedRun(cfg, oracle, rest, k);
    var end := RunEnd(cfg, key, uploadId, rest, oracle, n);
    Session(Uploads(cfg, key, uploadId, rest, k, n) + end.calls, end.outcome)
  }

  /** The whole session of one Upload call. */
  function Expected(cfg: Config, stream: seq<Recv>, oracle: Oracle): Session
  {
    if !Next(stream).Received? then
      Session([], Failed(InitialRecvFailed))
    else
      var key := Next(stream).req.fileName;
      var create := CreateMultipartUpload(cfg.bucket, key, VideoContentType);
      match oracle.create
      case CreateErr(cause) => Session([create], Failed(CreateFailed(cause)))
      case Created(uploadId) =>
        var tail := ExpectedFrom(cfg, key, uploadId, Rest(stream), oracle, 0);
        Session([create] + tail.calls, tail.outcome)
  }

  /** The uploads from `k` on start with the upload of chunk `k`. */
  lemma UploadsStep(cfg: Config, key: string, uploadId: string, rest: seq<Recv>, k: int, n: int)
    requires k < n
    ensures Uploads(cfg, key, uploadId, rest, k, n)
         == [UploadPart(cfg.bucket, key, uploadId, PartNumber(k), ChunkAt(rest, k))]
            + Uploads(cfg, key, uploadId, rest, k + 1, n)
  {
    var now := Uploads(cfg, key, uploadId, rest, k, n);
    var later := Uploads(cfg, key, uploadId, rest, k + 1, n);
    assert forall i :: 1 <= i < |now| ==> now[i] == later[i - 1];
  }

  /** Collecting part `k` extends the parts list of the first `k` chunks. */
  lemma PartsListStep(oracle: Oracle, k: nat)
    requires oracle.uploadPart(PartNumber(k)).PartOk?
    ensures PartsList(oracle, k) + [CompletedPart(oracle.uploadPart(PartNumber(k)).eTag, PartNumber(k))]
         == PartsList(oracle, k + 1)
  {
  }

  /** An accepted receive contributes its upload and leaves the rest to the next one. */
  lemma ExpectedFromAccepted(cfg: Config, key: string, uploadId: string, rest: seq<Recv>, oracle: Oracle, k: nat)
    requires k <= |rest|
    requires Accepted(cfg, oracle, rest, k)
    ensures ExpectedFrom(cfg, key, uploadId, rest, oracle, k)
         == Prepend([UploadPart(cfg.bucket, key, uploadId, PartNumber(k), rest[k].req.chunk)],
                    ExpectedFrom(cfg, key, uploadId, rest, oracle, k + 1))
  {
    var n := AcceptedRun(cfg, oracle, rest, k);
    assert n == AcceptedRun(cfg, oracle, rest, k + 1);
    UploadsStep(cfg, key, uploadId, rest, k, n);
  }

  /** The receive loop, entered at the `k`-th receive with part number `k + 1`
      and the first `k` parts collected, does what the closed form says. */
  lemma {:induction false} ReceivePartsMatchesSpec(cfg: Config, key: string, uploadId: string, rest: seq<Recv>,
                                                   oracle: Oracle, k: nat)
    requires k <= |rest|
    ensures ReceiveParts(cfg, key, uploadId, rest[k..], oracle, PartNumber(k), PartsList(oracle, k))
         == ExpectedFrom(cfg, key, uploadId, rest, oracle, k)
    decreases |rest| - k
  {
    NextOfSuffix(rest, k);
    if Accepted(cfg, oracle, rest, k) {
      assert Rest(rest[k..]) == rest[k + 1..];
      IncWrap(k + 1);
      PartsListStep(oracle, k);
      ReceivePartsMatchesSpec(cfg, key, uploadId, rest, oracle, k + 1);
      ExpectedFromAccepted(cfg, key, uploadId, rest, oracle, k);
    } else {
      assert AcceptedRun(cfg, oracle, rest, k) == k;
      assert Uploads(cfg, key, uploadId, rest, k, k) == [];
    }
  }

  /** The handler and the closed form agree on every input. */
  lemma UploadMatchesSpec(cfg: Config, stream: seq<Recv>, oracle: Oracle)
    ensures Upload(cfg, stream, oracle) == Expected(cfg, stream, oracle)
  {
    if Next(stream).Received? && oracle.create.Created? {
      var rest := Rest(stream);
      assert rest[0..] == rest;
      assert PartNumber(0) == 1;
      assert PartsList(oracle, 0) == [];
      ReceivePartsMatchesSpec(cfg, Next(stream).req.fileName, oracle.create.uploadId, rest, oracle, 0);
    }
  }
}
