/** What interrupted downloads keep, and how they end: resumed often enough, the artifact is whole. */
module DownloadRuns {
  import opened Text
  import OtaTypes
  import opened Download

  // ---------- one interrupted fetch ----------

  /** The reply continues where the partial file ends: a range from there on, or everything when there is nothing. */
  predicate Continues(offset: nat, reply: Reply) {
    reply.Response? && reply.https && (if offset > 0 then reply.status == 206 else reply.status == 200)
  }

  /** The connection breaks before the end. */
  predicate Breaks(content: Bytes, offset: nat, reply: Reply) {
    reply.Response? && !reply.complete && offset + |reply.body| < |content|
  }

  lemma {:induction false} AcceptedReply(content: Bytes, maxBytes: int, sha: Bytes -> string, files: Files,
                                         request: OtaTypes.Request, reply: Reply)
    requires Describes(request, content, maxBytes, sha) && !DigestMatches(sha, files.final, request.digest)
    requires IsPiece(content, maxBytes, files.partial) && Honest(content, Size(files.partial), reply)
    requires Continues(Size(files.partial), reply)
    ensures Refusal(maxBytes, Size(files.partial), reply) == Fetched
    ensures Base(files.partial, reply) == if files.partial.Some? then files.partial.value else []
    ensures After(maxBytes, sha, files, request, reply, Works) == Received(maxBytes, sha, files, request, reply, Works)
  {}

  /** An interrupted fetch keeps all that arrived, behind what was there before. */
  lemma {:induction false} InterruptedKeepsWhatArrived(content: Bytes, maxBytes: int, sha: Bytes -> string,
                                                       files: Files,
                                                       request: OtaTypes.Request, reply: Reply)
    requires Describes(request, content, maxBytes, sha) && !DigestMatches(sha, files.final, request.digest)
    requires IsPiece(content, maxBytes, files.partial) && Honest(content, Size(files.partial), reply)
    requires Continues(Size(files.partial), reply) && Breaks(content, Size(files.partial), reply)
    ensures var before := if files.partial.Some? then files.partial.value else [];
            After(maxBytes, sha, files, request, reply, Works)
                == (files.(partial := Some(before + reply.body)), CopyFailed)
  {
    AcceptedReply(content, maxBytes, sha, files, request, reply);
    assert Passed(maxBytes, Base(files.partial, reply), reply) == reply.body;
  }

  // ---------- many ----------

  /** What the replies brought, one after the other. */
  function Bodies(attempts: seq<Attempt>): Bytes
    decreases |attempts|
  {
    if attempts == [] then []
    else
      var last := attempts[|attempts| - 1].reply;
      Bodies(attempts[..|attempts| - 1]) + if last.Response? then last.body else []
  }

  /** Every attempt is for this request, on a disk that works, and gets an honest reply that continues where the last
      one broke; all break before the end. */
  predicate Interrupted(content: Bytes, request: OtaTypes.Request, attempts: seq<Attempt>) {
    forall i :: 0 <= i < |attempts| ==>
      var offset, a := |Bodies(attempts[..i])|, attempts[i];
      a.request == request && a.disk == Works && Continues(offset, a.reply) && Honest(content, offset, a.reply)
      && Breaks(content, offset, a.reply)
  }

  lemma {:induction false} InterruptedPrefix(content: Bytes, request: OtaTypes.Request, attempts: seq<Attempt>)
    requires attempts != [] && Interrupted(content, request, attempts)
    ensures Interrupted(content, request, attempts[..|attempts| - 1])
  {
    var front := attempts[..|attempts| - 1];
    forall i | 0 <= i < |front|
      ensures var offset, a := |Bodies(front[..i])|, front[i];
              a.request == request && a.disk == Works && Continues(offset, a.reply) && Honest(content, offset, a.reply)
              && Breaks(content, offset, a.reply)
    {
      assert front[..i] == attempts[..i];
    }
  }

  /** Over any number of interruptions the partial file is all that arrived so far, a part of the artifact. */
  lemma {:induction false} InterruptionsAddUp(content: Bytes, maxBytes: int, sha: Bytes -> string,
                                              request: OtaTypes.Request, attempts: seq<Attempt>)
    requires Describes(request, content, maxBytes, sha) && Interrupted(content, request, attempts)
    ensures var all := Bodies(attempts);
            && all <= content && (attempts != [] ==> |all| < |content|)
            && AfterAll(maxBytes, sha, Files(None, None), attempts)
               == Files(if attempts == [] then None else Some(all), None)
    decreases |attempts|
  {
    if attempts != [] {
      var front, last := attempts[..|attempts| - 1], attempts[|attempts| - 1];
      InterruptedPrefix(content, request, attempts);
      InterruptionsAddUp(content, maxBytes, sha, request, front);
      var files := AfterAll(maxBytes, sha, Files(None, None), front);
      InterruptedKeepsWhatArrived(content, maxBytes, sha, files, request, last.reply);
      BodyContinues(content, Bodies(front), last.reply);
    }
  }

  lemma {:induction false} BodyContinues(content: Bytes, before: Bytes, reply: Reply)
    requires before <= content && Continues(|before|, reply) && Honest(content, |before|, reply)
    ensures before + reply.body <= content
    ensures reply.complete ==> before + reply.body == content
  {
    assert before + content[|before|..] == content;
    assert |before| > 0 ==> reply.body <= content[|before|..];
  }

  /** Interrupted however often, a download that is continued each time and reaches the end is complete: the replies
      together are the artifact, and it is in place under its final name. */
  lemma {:induction false} ResumedDownloadCompletes(content: Bytes, maxBytes: int, sha: Bytes -> string,
                                                    request: OtaTypes.Request, attempts: seq<Attempt>, last: Reply)
    requires Describes(request, content, maxBytes, sha) && Interrupted(content, request, attempts)
    requires Continues(|Bodies(attempts)|, last) && Honest(content, |Bodies(attempts)|, last) && last.complete
    ensures var files := AfterAll(maxBytes, sha, Files(None, None), attempts);
            After(maxBytes, sha, files, request, last, Works) == (Files(None, Some(content)), Fetched)
    ensures Bodies(attempts) + last.body == content
  {
    InterruptionsAddUp(content, maxBytes, sha, request, attempts);
    var files := AfterAll(maxBytes, sha, Files(None, None), attempts);
    BodyContinues(content, Bodies(attempts), last);
    AcceptedReply(content, maxBytes, sha, files, request, last);
    assert Passed(maxBytes, Base(files.partial, last), last) == last.body;
  }

  // ---------- what else a fetch may come to ----------

  /** Why a reply is refused, in the order of the checks: the files stay as they are. */
  lemma {:induction false} RefusalsMean(maxBytes: int, sha: Bytes -> string, files: Files, request: OtaTypes.Request,
                                        reply: Reply, disk: Disk)
    requires HasPrefix(ToLower(request.artifactUrl), "https://") && !DigestMatches(sha, files.final, request.digest)
    ensures var (after, outcome) := After(maxBytes, sha, files, request, reply, disk);
            && (reply.NoConnection? ==> after == files && outcome == Unreachable)
            && (reply.Response? && reply.status != 200 && reply.status != 206 ==>
                  after == files && outcome == BadStatus)
    ensures reply.Response? && (reply.status == 200 || reply.status == 206) ==>
              var offset := if files.partial.Some? then |files.partial.value| else 0;
              var (after, outcome) := After(maxBytes, sha, files, request, reply, disk);
              var tooLarge := reply.contentLength > 0 && maxBytes > 0 && offset + reply.contentLength > maxBytes;
              var elsewhere := offset > 0 && reply.status == 206 && reply.rangeStart != Some(offset);
              && (outcome == LeftHttps <==> !reply.https)
              && (outcome == ReportedTooLarge <==> reply.https && tooLarge)
              && (outcome == WrongRange <==> reply.https && !tooLarge && elsewhere)
              && (!reply.https || tooLarge || elsewhere ==> after == files)
  {}

  /** Only over https is anything fetched, and nothing when the artifact is there already. */
  lemma {:induction false} NothingToDoMeans(maxBytes: int, sha: Bytes -> string, files: Files,
                                            request: OtaTypes.Request,
                                            reply: Reply, disk: Disk)
    ensures !HasPrefix(ToLower(request.artifactUrl), "https://") ==>
              After(maxBytes, sha, files, request, reply, disk) == (files, NotHttps)
    ensures HasPrefix(ToLower(request.artifactUrl), "https://") && files.final.Some?
            && sha(files.final.value) == ToLower(request.digest) ==>
              After(maxBytes, sha, files, request, reply, disk) == (files, Fetched)
  {}

  /** A whole reply on a working disk: what is on disk then is too large, of the wrong size or of the wrong digest,
      in that order, or is renamed. A wrong digest starts the download over; the other two keep the file. */
  lemma {:induction false} WholeReplyMeans(maxBytes: int, sha: Bytes -> string, files: Files, request: OtaTypes.Request,
                                           reply: Reply)
    requires HasPrefix(ToLower(request.artifactUrl), "https://") && !DigestMatches(sha, files.final, request.digest)
    requires reply.Response? && Refusal(maxBytes, Size(files.partial), reply) == Fetched && reply.complete
    ensures var limit := if maxBytes <= 0 then 4_294_967_296 else maxBytes;
            var resumed := files.partial.Some? && |files.partial.value| > 0 && reply.status == 206;
            var whole := (if resumed then files.partial.value else []) + reply.body;
            var (after, outcome) := After(maxBytes, sha, files, request, reply, Works);
            && (|whole| > limit ==> outcome == TooLarge && after.final == files.final)
            && (|whole| <= limit && request.artifactSize > 0 && |whole| != request.artifactSize ==>
                  outcome == WrongSize && after == files.(partial := Some(whole)))
            && (|whole| <= limit && (request.artifactSize > 0 ==> |whole| == request.artifactSize) ==>
                  if sha(whole) == ToLower(request.digest) then outcome == Fetched && after == Files(None, Some(whole))
                  else outcome == WrongDigest && after == Files(None, files.final))
  {
    var base := Base(files.partial, reply);
    if |base| + |reply.body| <= Limit(maxBytes) {
      assert Passed(maxBytes, base, reply) == reply.body;
    } else {
      OversizeIsCut(maxBytes, base, reply);
    }
  }

  lemma {:induction false} OversizeIsCut(maxBytes: int, base: Bytes, reply: Reply)
    requires reply.Response? && |base| + |reply.body| > Limit(maxBytes)
    ensures |base| <= Limit(maxBytes) ==> |Copied(maxBytes, base, reply, Works)| == Limit(maxBytes) + 1
    ensures |base| > Limit(maxBytes) ==> |Copied(maxBytes, base, reply, Works)| == |base|
  {}
}
