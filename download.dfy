/** The resumable, checksum-verified downloader `download_file` (deps.py:252-282).

    Each attempt sends a GET (with `Range: bytes=<offset>-` when the offset is
    positive), opens the destination in truncate mode at offset 0 or in append
    mode otherwise, copies the body, and then compares the file size with
    `offset + content-length`. A short file resumes from its size; a complete file
    whose SHA-256 hex digest differs from the expected one is deleted and fetched
    again from offset 0. When the retry counter is 1 the file is deleted and
    `DownloadFailed` is raised.

    The server is a per-attempt oracle and SHA-256 is a function parameter; the
    source's recursion is the function `Run`, and the method `DownloadFile`
    runs it as a loop over a destination-file object. */
module Download {
  import opened Common

  type Byte = bv8

  /** What `hexdigest()` of a SHA-256 hash can return: 64 lower-case hex digits. */
  predicate IsHexDigest(s: string) {
    |s| == 64 && forall i :: 0 <= i < |s| ==> IsLowerHex(s[i])
  }

  predicate IsLowerHex(c: char) {
    '0' <= c <= '9' || 'a' <= c <= 'f'
  }

  type HexDigest = s: string | IsHexDigest(s) witness Zeros(64)

  function Zeros(n: nat): (s: string)
    ensures |s| == n && forall i :: 0 <= i < n ==> s[i] == '0'
  {
    if n == 0 then [] else Zeros(n - 1) + "0"
  }

  datatype Header = Header(name: string, value: string)

  datatype HttpRequest = HttpRequest(url: string, headers: seq<Header>)

  /** A response: its body and the `content-length` header read as an integer (`None` when absent). */
  datatype Response = Response(body: seq<Byte>, contentLength: Option<int>)

  /** The outside world of one download: the server answers the k-th request,
      `digest` is `hashlib.file_digest(f, "sha256").hexdigest()` of a file's bytes. */
  datatype Remote = Remote(server: (nat, HttpRequest) -> Response, digest: seq<Byte> -> HexDigest)

  /** The arguments fixed for the whole download (the user agent comes from `get_user_agent`). */
  datatype Job = Job(url: string, userAgent: string, sha256: string)

  /** The destination path: absent, or present with its bytes. */
  datatype FileState = FileState(present: bool, content: seq<Byte>)

  const Absent := FileState(false, [])

  /** `open(download_path, "wb")` or `open(download_path, "ab")`. */
  datatype OpenMode = Truncate | Append

  datatype Outcome = Downloaded | DownloadFailed | MissingContentLength

  /** How one attempt ended. */
  datatype Verdict = ShortTransfer | DigestMismatch | Verified | NoContentLength

  /** What the attempt does next: stop, or try again from an offset
      (the saved size after a short transfer, 0 after a digest mismatch). */
  datatype Step = Finish(outcome: Outcome) | Again(offset: int)

  /** The record of one attempt: its offset, the request sent, the open mode, the
      file before opening, its bytes after the copy, the declared length, the verdict. */
  datatype Attempt = Attempt(offset: int, request: HttpRequest, mode: OpenMode, before: FileState,
                             after: seq<Byte>, declared: Option<int>, verdict: Verdict)

  /** The whole run: the outcome, the destination afterwards, every attempt in order. */
  datatype Trace = Trace(outcome: Outcome, file: FileState, attempts: seq<Attempt>)

  const RangeName := "Range"

  /** The value of the `Range` header for an offset. */
  function RangeValue(offset: nat): string {
    "bytes=" + NatToString(offset) + "-"
  }

  /** The headers of an attempt (deps.py:258-261). */
  function RequestHeaders(userAgent: string, offset: int): seq<Header> {
    [Header("User-agent", userAgent)] + if offset > 0 then [Header(RangeName, RangeValue(offset))] else []
  }

  /** Reads the offset back from a `bytes=<n>-` header value. */
  function ParseRangeValue(v: string): (r: Option<nat>)
    ensures r.Some? ==> StartsWith(v, "bytes=") && EndsWith(v, "-")
  {
    if |v| >= 7 && v[..6] == "bytes=" && v[|v| - 1] == '-' then ParseNat(v[6..|v| - 1]) else None
  }

  /** The offset a request asks for: the one of its Range header, 0 without one. */
  function RequestedOffset(hs: seq<Header>): Option<nat> {
    if |hs| == 2 && hs[1].name == RangeName then ParseRangeValue(hs[1].value)
    else if |hs| == 1 then Some(0)
    else None
  }

  /** The headers always carry the user agent first, and the Range header appears
      exactly when the offset is positive and names that offset. */
  lemma RequestHeadersRange(userAgent: string, offset: int)
    ensures RequestHeaders(userAgent, offset)[0] == Header("User-agent", userAgent)
    ensures RequestedOffset(RequestHeaders(userAgent, offset)) == Some(if offset > 0 then offset else 0)
    ensures (exists h :: h in RequestHeaders(userAgent, offset) && h.name == RangeName) <==> offset > 0
  {
    if offset > 0 {
      var v := RangeValue(offset);
      var digits := NatToString(offset);
      assert v[6..|v| - 1] == digits;
      NatToStringRoundTrip(offset);
    }
  }

  /** deps.py:264: truncate at offset 0, append otherwise. */
  function ModeFor(offset: int): OpenMode {
    if offset == 0 then Truncate else Append
  }

  /** The bytes of the file right after `open` in the given mode (append mode creates a missing file). */
  function Opened(f: FileState, mode: OpenMode): seq<Byte> {
    if mode == Truncate || !f.present then [] else f.content
  }

  /** deps.py:267-277: the verdict on an attempt from the saved size, the declared
      length and whether the digest matched. `int(None)` fails when the header is missing. */
  function Classify(saved: nat, declared: Option<int>, offset: int, digestMatches: bool): Verdict {
    if declared.None? then NoContentLength
    else if saved < declared.value + offset then ShortTransfer
    else if !digestMatches then DigestMismatch
    else Verified
  }

  /** deps.py:269-282: what follows a verdict, given the retry counter and the saved size. */
  function Next(v: Verdict, retry: int, saved: nat): Step {
    match v
    case NoContentLength => Finish(MissingContentLength)
    case Verified => Finish(Downloaded)
    case ShortTransfer => if retry == 1 then Finish(DownloadFailed) else Again(saved)
    case DigestMismatch => if retry == 1 then Finish(DownloadFailed) else Again(0)
  }

  /** The destination after the verdict is acted on: deleted on a digest mismatch and on
      a short transfer with the counter at 1, kept otherwise. */
  function FileAfter(v: Verdict, retry: int, after: seq<Byte>): FileState {
    if v == DigestMismatch || (v == ShortTransfer && retry == 1) then Absent else FileState(true, after)
  }

  /** With a counter of 0 or less the `retry == 1` guard never fires: no verdict fails the
      download, only a digest mismatch deletes the file, whatever it holds, and every other
      verdict keeps exactly the bytes copied. */
  lemma NonPositiveRetryNeverFails(v: Verdict, retry: int, saved: nat, after: seq<Byte>)
    requires retry <= 0
    ensures Next(v, retry, saved) != Finish(DownloadFailed)
    ensures FileAfter(v, retry, after) == Absent <==> v == DigestMismatch
    ensures v != DigestMismatch ==> FileAfter(v, retry, after) == FileState(true, after)
  {
  }

  /** One attempt with the given offset against the file `f`, the k-th request. */
  function AttemptAt(job: Job, remote: Remote, k: nat, f: FileState, offset: int): Attempt {
    var request := HttpRequest(job.url, RequestHeaders(job.userAgent, offset));
    var response := remote.server(k, request);
    var mode := ModeFor(offset);
    var after := Opened(f, mode) + response.body;
    var verdict := Classify(|after|, response.contentLength, offset, remote.digest(after) == job.sha256);
    Attempt(offset, request, mode, f, after, response.contentLength, verdict)
  }

  /** One attempt as a function of the number of requests sent before, the file it
      starts from and its offset. */
  type AttemptFn = (nat, FileState, int) -> Attempt

  /** The retry recursion of `download_file` (deps.py:269-282) over any single attempt:
      `retry` is the counter the call receives and k counts the requests sent before. */
  function RunWith(attempt: AttemptFn, k: nat, f: FileState, offset: int, retry: int): Trace
    requires retry >= 1
    decreases retry
  {
    var a := attempt(k, f, offset);
    var next := FileAfter(a.verdict, retry, a.after);
    match Next(a.verdict, retry, |a.after|)
    case Finish(o) => Trace(o, next, [a])
    case Again(from) => Prefixed([a], RunWith(attempt, k + 1, next, from, retry - 1))
  }

  /** Every attempt records the file it started from and its offset. */
  ghost predicate Records(attempt: AttemptFn) {
    forall k: nat, f: FileState, offset: int :: attempt(k, f, offset).before == f && attempt(k, f, offset).offset == offset
  }

  /** The attempts of `download_file` against one server for one job. */
  function Attempter(job: Job, remote: Remote): AttemptFn {
    (k: nat, f: FileState, offset: int) => AttemptAt(job, remote, k, f, offset)
  }

  lemma RunIsRunWith(job: Job, remote: Remote, k: nat, f: FileState, offset: int, retry: int)
    requires retry >= 1
    ensures Run(job, remote, k, f, offset, retry) == RunWith(Attempter(job, remote), k, f, offset, retry)
  {
  }

  lemma AttempterRecords(job: Job, remote: Remote)
    ensures Records(Attempter(job, remote))
  {
  }

  /** `download_file(url, download_path, sha256, range=offset, retry=retry)` as a
      function of the file it starts from; k counts the requests sent before. */
  function Run(job: Job, remote: Remote, k: nat, f: FileState, offset: int, retry: int): Trace
    requires retry >= 1
  {
    RunWith(Attempter(job, remote), k, f, offset, retry)
  }

  lemma {:induction false} RunWithLength(attempt: AttemptFn, k: nat, f: FileState, offset: int, retry: int)
    requires retry >= 1
    ensures var t := RunWith(attempt, k, f, offset, retry);
      1 <= |t.attempts| <= retry && t.attempts[0] == attempt(k, f, offset)
    decreases retry
  {
    var a := attempt(k, f, offset);
    match Next(a.verdict, retry, |a.after|)
    case Finish(o) =>
    case Again(from) =>
      RunWithLength(attempt, k + 1, FileAfter(a.verdict, retry, a.after), from, retry - 1);
  }

  lemma {:induction false} RunWithAttempts(attempt: AttemptFn, k: nat, f: FileState, offset: int, retry: int, i: nat)
    requires retry >= 1 && Records(attempt)
    requires i < |RunWith(attempt, k, f, offset, retry).attempts|
    ensures var a := RunWith(attempt, k, f, offset, retry).attempts[i];
      a == attempt(k + i, a.before, a.offset)
    decreases retry
  {
    var a := attempt(k, f, offset);
    var next := FileAfter(a.verdict, retry, a.after);
    var step := Next(a.verdict, retry, |a.after|);
    if i > 0 {
      assert step.Again?;
      var t' := RunWith(attempt, k + 1, next, step.offset, retry - 1);
      assert RunWith(attempt, k, f, offset, retry).attempts == [a] + t'.attempts;
      assert ([a] + t'.attempts)[i] == t'.attempts[i - 1];
      RunWithAttempts(attempt, k + 1, next, step.offset, retry - 1, i - 1);
      assert (k + 1) + (i - 1) == k + i;
    }
  }

  lemma {:induction false} RunWithLinks(attempt: AttemptFn, k: nat, f: FileState, offset: int, retry: int, i: nat)
    requires retry >= 1 && Records(attempt)
    requires i + 1 < |RunWith(attempt, k, f, offset, retry).attempts|
    ensures var t := RunWith(attempt, k, f, offset, retry);
      var a, b := t.attempts[i], t.attempts[i + 1];
      Next(a.verdict, retry - i, |a.after|) == Again(b.offset)
      && b.before == FileAfter(a.verdict, retry - i, a.after)
    decreases retry
  {
    var a := attempt(k, f, offset);
    var next := FileAfter(a.verdict, retry, a.after);
    var step := Next(a.verdict, retry, |a.after|);
    assert step.Again?;
    var t := RunWith(attempt, k, f, offset, retry);
    var t' := RunWith(attempt, k + 1, next, step.offset, retry - 1);
    assert t.attempts == [a] + t'.attempts;
    assert t.attempts[i + 1] == t'.attempts[i];
    if i > 0 {
      RunWithLinks(attempt, k + 1, next, step.offset, retry - 1, i - 1);
      assert t.attempts[i] == t'.attempts[i - 1];
      assert (retry - 1) - (i - 1) == retry - i;
    } else {
      RunWithLength(attempt, k + 1, next, step.offset, retry - 1);
    }
  }

  lemma {:induction false} RunWithLast(attempt: AttemptFn, k: nat, f: FileState, offset: int, retry: int)
    requires retry >= 1
    ensures var t := RunWith(attempt, k, f, offset, retry);
      |t.attempts| >= 1 &&
      var last := t.attempts[|t.attempts| - 1];
      Next(last.verdict, retry - |t.attempts| + 1, |last.after|) == Finish(t.outcome)
      && t.file == FileAfter(last.verdict, retry - |t.attempts| + 1, last.after)
    decreases retry
  {
    var a := attempt(k, f, offset);
    var next := FileAfter(a.verdict, retry, a.after);
    var step := Next(a.verdict, retry, |a.after|);
    if step.Again? {
      var t' := RunWith(attempt, k + 1, next, step.offset, retry - 1);
      RunWithLast(attempt, k + 1, next, step.offset, retry - 1);
      var t := RunWith(attempt, k, f, offset, retry);
      assert t == Prefixed([a], t');
      assert |t.attempts| == |t'.attempts| + 1;
      assert (retry - 1) - |t'.attempts| + 1 == retry - |t.attempts| + 1;
      assert t.attempts[|t.attempts| - 1] == t'.attempts[|t'.attempts| - 1];
    }
  }

  /** At least one and at most `retry` requests are sent, the first being the attempt
      from the starting file and offset. */
  lemma RunLength(job: Job, remote: Remote, k: nat, f: FileState, offset: int, retry: int)
    requires retry >= 1
    ensures var t := Run(job, remote, k, f, offset, retry);
      1 <= |t.attempts| <= retry && t.attempts[0] == AttemptAt(job, remote, k, f, offset)
  {
    RunIsRunWith(job, remote, k, f, offset, retry);
    RunWithLength(Attempter(job, remote), k, f, offset, retry);
  }

  /** A run of more than one attempt is its first attempt followed by the run the source's
      recursive call makes. */
  lemma RunTail(job: Job, remote: Remote, k: nat, f: FileState, offset: int, retry: int)
    requires retry >= 1
    requires |Run(job, remote, k, f, offset, retry).attempts| > 1
    ensures var a := AttemptAt(job, remote, k, f, offset);
      var step := Next(a.verdict, retry, |a.after|);
      && step.Again? && retry > 1
      && Run(job, remote, k, f, offset, retry).attempts
         == [a] + Run(job, remote, k + 1, FileAfter(a.verdict, retry, a.after), step.offset, retry - 1).attempts
  {
    RunUnfold(job, remote, k, f, offset, retry);
  }

  /** The i-th recorded attempt is the server's (k+i)-th request, made from the file and
      offset it records. */
  lemma RunAttempts(job: Job, remote: Remote, k: nat, f: FileState, offset: int, retry: int, i: nat)
    requires retry >= 1
    requires i < |Run(job, remote, k, f, offset, retry).attempts|
    ensures var a := Run(job, remote, k, f, offset, retry).attempts[i];
      a == AttemptAt(job, remote, k + i, a.before, a.offset)
  {
    AttempterRecords(job, remote);
    RunIsRunWith(job, remote, k, f, offset, retry);
    RunWithAttempts(Attempter(job, remote), k, f, offset, retry, i);
  }

  /** Consecutive attempts are linked as the source's recursion links them: the i-th
      verdict, with the counter at `retry - i`, asks for another try from the next
      attempt's offset, and the next attempt starts from the file the verdict left. */
  lemma RunLinks(job: Job, remote: Remote, k: nat, f: FileState, offset: int, retry: int, i: nat)
    requires retry >= 1
    requires i + 1 < |Run(job, remote, k, f, offset, retry).attempts|
    ensures var t := Run(job, remote, k, f, offset, retry);
      var a, b := t.attempts[i], t.attempts[i + 1];
      Next(a.verdict, retry - i, |a.after|) == Again(b.offset)
      && b.before == FileAfter(a.verdict, retry - i, a.after)
  {
    AttempterRecords(job, remote);
    RunIsRunWith(job, remote, k, f, offset, retry);
    RunWithLinks(Attempter(job, remote), k, f, offset, retry, i);
  }

  /** The last attempt's verdict, with the counter left at that point, gives the outcome
      and the final state of the destination. */
  lemma RunLast(job: Job, remote: Remote, k: nat, f: FileState, offset: int, retry: int)
    requires retry >= 1
    ensures var t := Run(job, remote, k, f, offset, retry);
      |t.attempts| >= 1 &&
      var last := t.attempts[|t.attempts| - 1];
      Next(last.verdict, retry - |t.attempts| + 1, |last.after|) == Finish(t.outcome)
      && t.file == FileAfter(last.verdict, retry - |t.attempts| + 1, last.after)
  {
    RunIsRunWith(job, remote, k, f, offset, retry);
    RunWithLast(Attempter(job, remote), k, f, offset, retry);
  }

  /** A normal return means the last attempt's file was at least `offset + content-length`
      long, its SHA-256 hex digest equals the expected one, and the file is kept. */
  lemma SuccessIsVerified(job: Job, remote: Remote, k: nat, f: FileState, offset: int, retry: int)
    requires retry >= 1
    requires Run(job, remote, k, f, offset, retry).outcome == Downloaded
    ensures var t := Run(job, remote, k, f, offset, retry);
      var last := t.attempts[|t.attempts| - 1];
      && t.file == FileState(true, last.after)
      && remote.digest(t.file.content) == job.sha256
      && last.declared.Some? && |t.file.content| >= last.offset + last.declared.value
  {
    var t := Run(job, remote, k, f, offset, retry);
    RunLast(job, remote, k, f, offset, retry);
    var n := |t.attempts|;
    var last := t.attempts[n - 1];
    assert last.verdict == Verified;
    RunAttempts(job, remote, k, f, offset, retry, n - 1);
    VerifiedAttempt(job, remote, k + n - 1, last);
  }

  /** An attempt judged `Verified` kept enough bytes and matched the digest. */
  lemma VerifiedAttempt(job: Job, remote: Remote, k: nat, a: Attempt)
    requires a == AttemptAt(job, remote, k, a.before, a.offset)
    requires a.verdict == Verified
    ensures remote.digest(a.after) == job.sha256
    ensures a.declared.Some? && |a.after| >= a.offset + a.declared.value
  {
  }

  /** Only a 64-digit hex string can ever be matched, so an empty expected digest never succeeds:
      the file is downloaded again and again until the counter runs out. */
  lemma MalformedDigestNeverSucceeds(job: Job, remote: Remote, k: nat, f: FileState, offset: int, retry: int)
    requires retry >= 1
    requires !IsHexDigest(job.sha256)
    ensures Run(job, remote, k, f, offset, retry).outcome != Downloaded
  {
    if Run(job, remote, k, f, offset, retry).outcome == Downloaded {
      SuccessIsVerified(job, remote, k, f, offset, retry);
    }
  }

  lemma EmptyDigestNeverSucceeds(job: Job, remote: Remote, k: nat, f: FileState, offset: int, retry: int)
    requires retry >= 1
    requires job.sha256 == ""
    ensures Run(job, remote, k, f, offset, retry).outcome != Downloaded
  {
    MalformedDigestNeverSucceeds(job, remote, k, f, offset, retry);
  }

  /** Every attempt but the last was a short transfer or a digest mismatch. */
  lemma EarlierAttemptsRetried(job: Job, remote: Remote, k: nat, f: FileState, offset: int, retry: int, i: nat)
    requires retry >= 1
    requires i + 1 < |Run(job, remote, k, f, offset, retry).attempts|
    ensures var v := Run(job, remote, k, f, offset, retry).attempts[i].verdict;
      v == ShortTransfer || v == DigestMismatch
  {
    RunLinks(job, remote, k, f, offset, retry, i);
  }

  /** `DownloadFailed` is raised exactly when all `retry` attempts were used and the last
      one was short or mismatched, and the destination no longer exists then. */
  lemma FailureRemovesFile(job: Job, remote: Remote, k: nat, f: FileState, offset: int, retry: int)
    requires retry >= 1
    ensures var t := Run(job, remote, k, f, offset, retry);
      var last := t.attempts[|t.attempts| - 1];
      && (t.outcome == DownloadFailed <==>
            |t.attempts| == retry && (last.verdict == ShortTransfer || last.verdict == DigestMismatch))
      && (t.outcome == DownloadFailed ==> !t.file.present)
  {
    RunLength(job, remote, k, f, offset, retry);
    RunLast(job, remote, k, f, offset, retry);
  }

  /** After a short transfer, the next attempt starts from the saved size: from the kept
      file, with a Range header for that size and in append mode when it is positive,
      so the bytes already saved stay a prefix of the file. */
  lemma ShortTransferResumes(job: Job, remote: Remote, k: nat, f: FileState, offset: int, retry: int, i: nat)
    requires retry >= 1
    requires i + 1 < |Run(job, remote, k, f, offset, retry).attempts|
    requires Run(job, remote, k, f, offset, retry).attempts[i].verdict == ShortTransfer
    ensures var t := Run(job, remote, k, f, offset, retry);
      var a, b := t.attempts[i], t.attempts[i + 1];
      && b.offset == |a.after|
      && b.before == FileState(true, a.after)
      && a.after <= b.after
      && RequestedOffset(b.request.headers) == Some(|a.after|)
      && (|a.after| > 0 ==> b.mode == Append)
  {
    var t := Run(job, remote, k, f, offset, retry);
    var a, b := t.attempts[i], t.attempts[i + 1];
    RunLinks(job, remote, k, f, offset, retry, i);
    RunAttempts(job, remote, k, f, offset, retry, i + 1);
    RequestHeadersRange(job.userAgent, b.offset);
  }

  /** After a digest mismatch the file is gone and the next attempt starts over: offset 0,
      no Range header, truncate mode, and the file holds only the new body. */
  lemma MismatchRestarts(job: Job, remote: Remote, k: nat, f: FileState, offset: int, retry: int, i: nat)
    requires retry >= 1
    requires i + 1 < |Run(job, remote, k, f, offset, retry).attempts|
    requires Run(job, remote, k, f, offset, retry).attempts[i].verdict == DigestMismatch
    ensures var t := Run(job, remote, k, f, offset, retry);
      var b := t.attempts[i + 1];
      && b.offset == 0
      && b.before == Absent
      && b.request.headers == [Header("User-agent", job.userAgent)]
      && b.mode == Truncate
      && b.after == remote.server(k + i + 1, b.request).body
  {
    var t := Run(job, remote, k, f, offset, retry);
    var a, b := t.attempts[i], t.attempts[i + 1];
    RunLinks(job, remote, k, f, offset, retry, i);
    MismatchStep(retry - i, |a.after|, a.after, b.offset, b.before);
    RunAttempts(job, remote, k, f, offset, retry, i + 1);
    FreshAttempt(job, remote, k + i + 1, b);
  }

  /** A mismatch that is retried deletes the file and asks to start again from 0. */
  lemma MismatchStep(c: int, saved: nat, after: seq<Byte>, from: int, before: FileState)
    requires Next(DigestMismatch, c, saved) == Again(from)
    requires before == FileAfter(DigestMismatch, c, after)
    ensures from == 0 && before == Absent
  {
  }

  /** An attempt from offset 0 on a missing file sends no Range header, truncates, and
      holds only the new body. */
  lemma FreshAttempt(job: Job, remote: Remote, k: nat, b: Attempt)
    requires b == AttemptAt(job, remote, k, b.before, b.offset)
    requires b.offset == 0 && b.before == Absent
    ensures b.request.headers == [Header("User-agent", job.userAgent)]
    ensures b.mode == Truncate
    ensures b.after == remote.server(k, b.request).body
  {
    assert [] + remote.server(k, b.request).body == remote.server(k, b.request).body;
  }

  /** A fresh download from a server that sends the whole file with its length and the
      expected digest on the first request succeeds with one request, keeping exactly those bytes. */
  lemma CompleteFirstResponse(job: Job, remote: Remote, retry: int)
    requires retry >= 1
    requires var r := remote.server(0, HttpRequest(job.url, RequestHeaders(job.userAgent, 0)));
      r.contentLength == Some(|r.body|) && remote.digest(r.body) == job.sha256
    ensures var t := Run(job, remote, 0, Absent, 0, retry);
      var r := remote.server(0, HttpRequest(job.url, RequestHeaders(job.userAgent, 0)));
      t.outcome == Downloaded && |t.attempts| == 1 && t.file == FileState(true, r.body)
  {
    var r := remote.server(0, HttpRequest(job.url, RequestHeaders(job.userAgent, 0)));
    assert [] + r.body == r.body;
  }

  /** The destination path: whether it exists and its bytes. */
  class DestFile {
    var present: bool
    var content: seq<Byte>

    function State(): FileState
      reads this
    {
      FileState(present, content)
    }

    constructor (f: FileState)
      ensures State() == f
    {
      present, content := f.present, f.content;
    }

    /** `open(download_path, "wb" | "ab")`: creates the file, truncating it in "wb" mode. */
    method Open(mode: OpenMode)
      modifies this
      ensures State() == FileState(true, Opened(old(State()), mode))
    {
      if mode == Truncate || !present {
        content := [];
      }
      present := true;
    }

    /** `shutil.copyfileobj(r, f)`: the body is written at the end of the open file. */
    method Write(bytes: seq<Byte>)
      requires present
      modifies this
      ensures State() == FileState(true, old(content) + bytes)
    {
      content := content + bytes;
    }

    /** `f.tell()` after the copy: the file's size. */
    method Tell() returns (n: nat)
      ensures n == |content|
    {
      n := |content|;
    }

    /** `download_path.unlink()` (it raises when the file is missing). */
    method Unlink()
      requires present
      modifies this
      ensures State() == Absent
    {
      present, content := false, [];
    }
  }

  /** deps.py:252-282 as a loop: the outcome, the destination and the attempts are exactly
      those of `Run` from the destination's initial state. */
  method DownloadFile(dest: DestFile, job: Job, remote: Remote, offset: int, retry: int)
    returns (outcome: Outcome, attempts: seq<Attempt>)
    requires retry >= 1
    modifies dest
    ensures Trace(outcome, dest.State(), attempts) == Run(job, remote, 0, old(dest.State()), offset, retry)
  {
    var range, left, k := offset, retry, 0;
    attempts := [];
    while true
      invariant left >= 1 && k == |attempts|
      invariant Run(job, remote, 0, old(dest.State()), offset, retry)
        == Prefixed(attempts, Run(job, remote, k, dest.State(), range, left))
      decreases left
    {
      ghost var start := dest.State();
      var attempt := TryOnce(dest, job, remote, k, range, left);
      var step := Next(attempt.verdict, left, |attempt.after|);
      LoopStep(Run(job, remote, 0, old(dest.State()), offset, retry), attempts, job, remote, k, start, range, left);
      attempts := attempts + [attempt];
      if step.Finish? {
        outcome := step.outcome;
        return;
      }
      range, left, k := step.offset, left - 1, k + 1;
    }
  }

  /** The loop of `DownloadFile` after one more attempt: the whole run is the attempts so
      far followed by either nothing more or the rest of the run. */
  lemma LoopStep(whole: Trace, attempts: seq<Attempt>, job: Job, remote: Remote, k: nat, f: FileState, offset: int, retry: int)
    requires retry >= 1
    requires whole == Prefixed(attempts, Run(job, remote, k, f, offset, retry))
    ensures var a := AttemptAt(job, remote, k, f, offset);
      var next := FileAfter(a.verdict, retry, a.after);
      match Next(a.verdict, retry, |a.after|)
      case Finish(o) => whole == Trace(o, next, attempts + [a])
      case Again(from) => whole == Prefixed(attempts + [a], Run(job, remote, k + 1, next, from, retry - 1))
  {
    var a := AttemptAt(job, remote, k, f, offset);
    var next := FileAfter(a.verdict, retry, a.after);
    RunUnfold(job, remote, k, f, offset, retry);
    match Next(a.verdict, retry, |a.after|)
    case Finish(o) =>
    case Again(from) =>
      PrefixedAssoc(attempts, a, Run(job, remote, k + 1, next, from, retry - 1));
  }

  /** One call of `download_file` up to the recursive call: request, open, copy, size and
      digest check, and the `unlink` the verdict asks for. */
  method TryOnce(dest: DestFile, job: Job, remote: Remote, k: nat, range: int, left: int) returns (attempt: Attempt)
    modifies dest
    ensures attempt == AttemptAt(job, remote, k, old(dest.State()), range)
    ensures dest.State() == FileAfter(attempt.verdict, left, attempt.after)
  {
    var start := dest.State();
    var request := HttpRequest(job.url, RequestHeaders(job.userAgent, range));
    var response := remote.server(k, request);
    var mode := ModeFor(range);
    dest.Open(mode);
    dest.Write(response.body);
    var saved := dest.Tell();
    var matches := remote.digest(dest.content) == job.sha256;
    var verdict := Classify(saved, response.contentLength, range, matches);
    attempt := Attempt(range, request, mode, start, dest.content, response.contentLength, verdict);
    if verdict == ShortTransfer && left == 1 {
      dest.Unlink();
    } else if verdict == DigestMismatch {
      dest.Unlink();
    }
  }

  /** A run with earlier attempts put in front of its own. */
  function Prefixed(earlier: seq<Attempt>, t: Trace): Trace {
    Trace(t.outcome, t.file, earlier + t.attempts)
  }

  lemma PrefixedAssoc(earlier: seq<Attempt>, a: Attempt, t: Trace)
    ensures Prefixed(earlier, Prefixed([a], t)) == Prefixed(earlier + [a], t)
  {
    assert earlier + ([a] + t.attempts) == (earlier + [a]) + t.attempts;
  }

  /** One unfolding of `Run`: the first attempt, then either the end or the recursive run. */
  lemma RunUnfold(job: Job, remote: Remote, k: nat, f: FileState, offset: int, retry: int)
    requires retry >= 1
    ensures var a := AttemptAt(job, remote, k, f, offset);
      var next := FileAfter(a.verdict, retry, a.after);
      Run(job, remote, k, f, offset, retry) ==
        match Next(a.verdict, retry, |a.after|)
        case Finish(o) => Trace(o, next, [a])
        case Again(from) => Prefixed([a], Run(job, remote, k + 1, next, from, retry - 1))
  {
    assert Attempter(job, remote)(k, f, offset) == AttemptAt(job, remote, k, f, offset);
  }
}
