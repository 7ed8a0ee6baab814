/** Fetching an update's artifact: partial downloads are kept and resumed with range requests. */
module Download {
  import opened Text
  import OtaTypes

  type Bytes = seq<bv8>

  const DEFAULT_LIMIT := 0x1_0000_0000 // 4 GiB

  /** The staging files of one update. */
  datatype Files = Files(partial: Option<Bytes>, final: Option<Bytes>)

  /** What came of the request. `contentLength` is not positive when the server did not say, `rangeStart`
      is where Content-Range says the body starts, and `body` is what arrived before the end, or
      before the connection broke. */
  datatype Reply =
    | NoConnection
    | Response(status: int, https: bool, contentLength: int, rangeStart: Option<nat>, body: Bytes, complete: bool)

  /** The first thing that goes wrong on the disk, if any. */
  datatype Disk = Works | CannotOpen | WriteFails(after: nat) | SyncFails | RenameFails

  datatype Outcome =
    | Fetched
    | NotHttps | Unreachable | BadStatus | LeftHttps | ReportedTooLarge | WrongRange
    | OpenFailed | CopyFailed | SyncFailed | TooLarge | WrongSize | WrongDigest | RenameFailed

  const OK := 200
  const PARTIAL_CONTENT := 206

  function Limit(maxBytes: int): nat {
    if maxBytes <= 0 then DEFAULT_LIMIT else maxBytes
  }

  function Size(file: Option<Bytes>): nat {
    if file.Some? then |file.value| else 0
  }

  predicate DigestMatches(sha: Bytes -> string, file: Option<Bytes>, expected: string) {
    file.Some? && sha(file.value) == ToLower(expected)
  }

  function Shorter(a: nat, b: int): nat {
    if b <= 0 then 0 else if a < b then a else b
  }

  // ---------- one fetch, on values ----------

  /** Why the reply is not even copied. */
  function Refusal(maxBytes: int, offset: nat, reply: Reply): Outcome {
    if reply.NoConnection? then Unreachable
    else if reply.status != OK && reply.status != PARTIAL_CONTENT then BadStatus
    else if !reply.https then LeftHttps
    else if reply.contentLength > 0 && maxBytes > 0 && offset + reply.contentLength > maxBytes then ReportedTooLarge
    else if offset > 0 && reply.status == PARTIAL_CONTENT && reply.rangeStart != Some(offset) then WrongRange
    else Fetched
  }

  /** What the reply is appended to. */
  function Base(partial: Option<Bytes>, reply: Reply): Bytes
    requires reply.Response?
  {
    if Size(partial) > 0 && reply.status == PARTIAL_CONTENT then partial.value else []
  }

  /** The part of the body that the size limit lets through. */
  function Passed(maxBytes: int, base: Bytes, reply: Reply): Bytes
    requires reply.Response?
  {
    reply.body[..Shorter(|reply.body|, Limit(maxBytes) - |base| + 1)]
  }

  function Copied(maxBytes: int, base: Bytes, reply: Reply, disk: Disk): Bytes
    requires reply.Response?
  {
    var passed := Passed(maxBytes, base, reply);
    base + if disk.WriteFails? then passed[..Shorter(|passed|, disk.after)] else passed
  }

  /** How the copy ends; a broken connection shows only if the limit was not reached before. */
  function Ending(maxBytes: int, sha: Bytes -> string, request: OtaTypes.Request, base: Bytes, reply: Reply,
                  disk: Disk): Outcome
    requires reply.Response?
  {
    var file := Copied(maxBytes, base, reply, disk);
    if disk.WriteFails? || (!reply.complete && |reply.body| < Limit(maxBytes) - |base| + 1) then CopyFailed
    else if disk.SyncFails? then SyncFailed
    else if |file| > Limit(maxBytes) then TooLarge
    else if request.artifactSize > 0 && |file| != request.artifactSize then WrongSize
    else if !DigestMatches(sha, Some(file), request.digest) then WrongDigest
    else if disk.RenameFails? then RenameFailed
    else Fetched
  }

  function After(maxBytes: int, sha: Bytes -> string, files: Files, request: OtaTypes.Request, reply: Reply,
                 disk: Disk): (Files, Outcome) {
    if !HasPrefix(ToLower(request.artifactUrl), "https://") then (files, NotHttps)
    else if DigestMatches(sha, files.final, request.digest) then (files, Fetched)
    else
      var refusal := Refusal(maxBytes, Size(files.partial), reply);
      if refusal != Fetched then (files, refusal)
      else if disk.CannotOpen? then (files, OpenFailed)
      else Received(maxBytes, sha, files, request, reply, disk)
  }

  function Received(maxBytes: int, sha: Bytes -> string, files: Files, request: OtaTypes.Request, reply: Reply,
                    disk: Disk): (Files, Outcome)
    requires reply.Response?
  {
    var base := Base(files.partial, reply);
    var file := Copied(maxBytes, base, reply, disk);
    var ending := Ending(maxBytes, sha, request, base, reply, disk);
    (match ending
     case Fetched => Files(None, Some(file))
     case WrongDigest => files.(partial := None)
     case _ => files.(partial := Some(file)), ending)
  }

  // ---------- one fetch, as the agent does it ----------

  class Downloader {
    const maxBytes: int
    const sha: Bytes -> string
    var partial: Option<Bytes>
    var final: Option<Bytes>

    constructor (maxBytes: int, sha: Bytes -> string, partial: Option<Bytes>, final: Option<Bytes>)
      ensures this.maxBytes == maxBytes && this.sha == sha && Contents() == Files(partial, final)
    {
      this.maxBytes, this.sha, this.partial, this.final := maxBytes, sha, partial, final;
    }

    function Contents(): Files
      reads this
    {
      Files(partial, final)
    }

    method Fetch(request: OtaTypes.Request, reply: Reply, disk: Disk) returns (outcome: Outcome)
      modifies `partial, `final
      ensures (Contents(), outcome) == After(maxBytes, sha, old(Contents()), request, reply, disk)
    {
      if !HasPrefix(ToLower(request.artifactUrl), "https://") { return NotHttps; }
      if DigestMatches(sha, final, request.digest) { return Fetched; }
      var offset := Size(partial);
      if reply.NoConnection? { return Unreachable; }
      if reply.status != OK && reply.status != PARTIAL_CONTENT { return BadStatus; }
      if !reply.https { return LeftHttps; }
      if reply.contentLength > 0 && maxBytes > 0 && offset + reply.contentLength > maxBytes { return ReportedTooLarge; }
      if offset > 0 && reply.status == PARTIAL_CONTENT && reply.rangeStart != Some(offset) { return WrongRange; }
      if disk.CannotOpen? { return OpenFailed; }
      outcome := Receive(request, reply, disk);
    }

    /** Copy the body into the partial file, check it, and rename it. */
    method Receive(request: OtaTypes.Request, reply: Reply, disk: Disk) returns (outcome: Outcome)
      requires reply.Response?
      modifies `partial, `final
      ensures (Contents(), outcome) == Received(maxBytes, sha, old(Contents()), request, reply, disk)
    {
      var offset := Size(partial);
      ghost var base := Base(partial, reply);
      if !(offset > 0 && reply.status == PARTIAL_CONTENT) {
        partial := Some([]);
        offset := 0;
      }
      var limit: int := Limit(maxBytes);
      var written, broken := Copy(reply, limit - offset + 1, disk);
      assert partial == Some(Copied(maxBytes, base, reply, disk));
      if broken { return CopyFailed; }
      if disk.SyncFails? { return SyncFailed; }
      if offset + written > limit { return TooLarge; }
      if request.artifactSize > 0 && offset + written != request.artifactSize { return WrongSize; }
      if !DigestMatches(sha, partial, request.digest) {
        partial := None;
        return WrongDigest;
      }
      if disk.RenameFails? { return RenameFailed; }
      partial, final := None, partial;
      outcome := Fetched;
    }

    /** `io.Copy` of a limited reader onto the end of the partial file. */
    method Copy(reply: Reply, limit: int, disk: Disk) returns (written: nat, broken: bool)
      requires reply.Response? && partial.Some?
      modifies `partial
      ensures var passed := reply.body[..Shorter(|reply.body|, limit)];
              var copied := if disk.WriteFails? then passed[..Shorter(|passed|, disk.after)] else passed;
              partial == Some(old(partial).value + copied) && written == |copied|
      ensures broken == (disk.WriteFails? || (!reply.complete && |reply.body| < limit))
    {
      var data := reply.body[..Shorter(|reply.body|, limit)];
      broken := !reply.complete && |reply.body| < limit;
      if disk.WriteFails? { data, broken := data[..Shorter(|data|, disk.after)], true; }
      partial := Some(partial.value + data);
      written := |data|;
    }
  }

  // ---------- a server that follows the standard ----------

  /** A reply to a request from `offset` on, for an artifact with this content, by sections 14.2, 14.4,
      15.3.7 and 15.5.17 of RFC 9110: a server may ignore the range, and must not satisfy one that
      starts at the end. */
  predicate Honest(content: Bytes, offset: nat, reply: Reply) {
    reply.Response? ==>
      && (reply.status == OK ==>
            && reply.body <= content && (reply.complete ==> reply.body == content)
            && (reply.contentLength > 0 ==> reply.contentLength == |content|))
      && (reply.status == PARTIAL_CONTENT ==>
            && 0 < offset < |content| && reply.rangeStart == Some(offset)
            && reply.body <= content[offset..] && (reply.complete ==> reply.body == content[offset..])
            && (reply.contentLength > 0 ==> reply.contentLength == |content| - offset))
  }

  /** The partial file is a piece of the artifact, from its start. */
  predicate IsPiece(content: Bytes, maxBytes: int, partial: Option<Bytes>) {
    partial.Some? ==> partial.value <= content && |partial.value| <= Limit(maxBytes) + 1
  }

  lemma {:induction false} CopyIsPiece(content: Bytes, maxBytes: int, partial: Option<Bytes>, reply: Reply, disk: Disk)
    requires IsPiece(content, maxBytes, partial) && Honest(content, Size(partial), reply)
    requires Refusal(maxBytes, Size(partial), reply) == Fetched
    ensures IsPiece(content, maxBytes, Some(Copied(maxBytes, Base(partial, reply), reply, disk)))
  {
    var base := Base(partial, reply);
    var copied := Copied(maxBytes, base, reply, disk)[|base|..];
    assert copied <= reply.body;
    if base != [] { assert base + copied <= base + content[|base|..] == content; }
  }

  lemma {:induction false} FetchKeepsPiece(content: Bytes, maxBytes: int, sha: Bytes -> string, files: Files,
                                           a: Attempt)
    requires IsPiece(content, maxBytes, files.partial) && Honest(content, Size(files.partial), a.reply)
    ensures IsPiece(content, maxBytes, After(maxBytes, sha, files, a.request, a.reply, a.disk).0.partial)
  {
    if Refusal(maxBytes, Size(files.partial), a.reply) == Fetched {
      CopyIsPiece(content, maxBytes, files.partial, a.reply, a.disk);
    }
  }

  datatype Attempt = Attempt(request: OtaTypes.Request, reply: Reply, disk: Disk)

  /** The files after any number of fetches. */
  function AfterAll(maxBytes: int, sha: Bytes -> string, files: Files, attempts: seq<Attempt>): Files
    decreases |attempts|
  {
    if attempts == [] then files
    else
      var last := attempts[|attempts| - 1];
      After(maxBytes, sha, AfterAll(maxBytes, sha, files, attempts[..|attempts| - 1]), last.request, last.reply,
          last.disk).0
  }

  /** Each reply is an honest one to the request that the agent makes at that point. */
  predicate AllHonest(maxBytes: int, sha: Bytes -> string, files: Files, attempts: seq<Attempt>, content: Bytes) {
    forall i :: 0 <= i < |attempts| ==>
      Honest(content, Size(AfterAll(maxBytes, sha, files, attempts[..i]).partial), attempts[i].reply)
  }

  /** Over any number of interrupted, refused or failed fetches, the partial file is a prefix of the
      artifact, and at most one byte longer than the limit. */
  lemma {:induction false} PartialIsAlwaysAPiece(maxBytes: int, sha: Bytes -> string, attempts: seq<Attempt>,
                                                 content: Bytes)
    requires AllHonest(maxBytes, sha, Files(None, None), attempts, content)
    ensures IsPiece(content, maxBytes, AfterAll(maxBytes, sha, Files(None, None), attempts).partial)
    decreases |attempts|
  {
    if attempts != [] {
      var n := |attempts| - 1;
      var before := attempts[..n];
      forall i | 0 <= i < n
        ensures Honest(content, Size(AfterAll(maxBytes, sha, Files(None, None), before[..i]).partial), before[i].reply)
      {
        assert before[..i] == attempts[..i];
      }
      PartialIsAlwaysAPiece(maxBytes, sha, before, content);
      FetchKeepsPiece(content, maxBytes, sha, AfterAll(maxBytes, sha, Files(None, None), before), attempts[n]);
    }
  }

  /** Success means that the final file has the requested digest, whatever the server sent; a final
      file that was downloaded is within the limit and of the requested size. */
  lemma {:induction false} FetchedHasTheDigest(maxBytes: int, sha: Bytes -> string, files: Files,
                                               request: OtaTypes.Request, reply: Reply, disk: Disk)
    requires After(maxBytes, sha, files, request, reply, disk).1 == Fetched
    ensures var final := After(maxBytes, sha, files, request, reply, disk).0.final;
            && DigestMatches(sha, final, request.digest)
            && (final == files.final
                || (|final.value| <= Limit(maxBytes)
                   && (request.artifactSize > 0 ==> |final.value| == request.artifactSize)))
  {
    if !DigestMatches(sha, files.final, request.digest) {
      assert Ending(maxBytes, sha, request, Base(files.partial, reply), reply, disk) == Fetched;
    }
  }

  /** The request is for this artifact, and the artifact is within the limit. */
  predicate Describes(request: OtaTypes.Request, content: Bytes, maxBytes: int, sha: Bytes -> string) {
    && HasPrefix(ToLower(request.artifactUrl), "https://")
    && sha(content) == ToLower(request.digest)
    && (request.artifactSize > 0 ==> request.artifactSize == |content|)
    && |content| <= Limit(maxBytes)
  }

  predicate ReportsTooMuch(maxBytes: int, offset: nat, reply: Reply)
    requires reply.Response?
  {
    reply.contentLength > 0 && maxBytes > 0 && offset + reply.contentLength > maxBytes
  }

  /** With an honest server, a whole reply and a working disk, a fetch succeeds exactly when the server
      continued from where the file ends, or sent everything again without announcing a length that,
      added to what is there already, exceeds the limit. */
  lemma {:induction false} FetchSucceedsExactlyWhen(maxBytes: int, sha: Bytes -> string, files: Files,
                                                    request: OtaTypes.Request, content: Bytes, reply: Reply)
    requires Describes(request, content, maxBytes, sha) && !DigestMatches(sha, files.final, request.digest)
    requires IsPiece(content, maxBytes, files.partial) && Honest(content, Size(files.partial), reply)
    requires reply.Response? && reply.https && reply.complete
    ensures var (after, outcome) := After(maxBytes, sha, files, request, reply, Works);
            (outcome == Fetched <==>
               reply.status == PARTIAL_CONTENT
               || (reply.status == OK && !ReportsTooMuch(maxBytes, Size(files.partial), reply)))
            && (outcome == Fetched ==> after == Files(None, Some(content)))
            && (outcome != Fetched ==> after == files)
  {
    if reply.status == PARTIAL_CONTENT {
      assert files.partial.value + content[|files.partial.value|..] == content;
    }
    if Refusal(maxBytes, Size(files.partial), reply) == Fetched {
      var base := Base(files.partial, reply);
      assert base + reply.body == content;
      assert Copied(maxBytes, base, reply, Works) == content;
    }
  }

  predicate RangesOnly(attempts: seq<Attempt>) {
    forall i :: 0 <= i < |attempts| ==> attempts[i].reply.NoConnection? || attempts[i].reply.status != OK
  }

  /** A file that is complete but was never renamed cannot be finished as long as the server honours
      ranges: every request starts at the end, and no such range can be satisfied. */
  lemma {:induction false} CompletePartialIsStuck(maxBytes: int, sha: Bytes -> string, files: Files,
                                                  attempts: seq<Attempt>, content: Bytes, digest: string)
    requires files.partial == Some(content) && content != []
    requires !DigestMatches(sha, files.final, digest) && forall i :: 0 <= i < |attempts| ==>
             attempts[i].request.digest == digest
    requires AllHonest(maxBytes, sha, files, attempts, content) && RangesOnly(attempts)
    ensures AfterAll(maxBytes, sha, files, attempts) == files
    decreases |attempts|
  {
    if attempts != [] {
      var n := |attempts| - 1;
      var before := attempts[..n];
      forall i | 0 <= i < n ensures Honest(content, Size(AfterAll(maxBytes, sha, files, before[..i]).partial),
          before[i].reply) {
        assert before[..i] == attempts[..i];
      }
      CompletePartialIsStuck(maxBytes, sha, files, before, content, digest);
      assert Refusal(maxBytes, Size(files.partial), attempts[n].reply) != Fetched;
    }
  }
}
