/** The per-case upload tracker. `startUpload` marks the case as uploading,
    posts every file as its own multipart request, collects one outcome per
    file, reports the aggregate success and failure counts, and finally marks
    the case idle again. The transport is an input: one response per file. */
module UploadStore {
  import opened Wrappers
  import opened Text
  import opened Seqs
  import opened ApiModels
  import opened Notify
  import opened AuthStore
  import UseApi

  datatype UploadState = UploadState(isUploading: bool, files: seq<string>)

  /** The status of a case with no upload on record, and of a finished one. */
  const Idle := UploadState(false, [])

  /** What the transport reports for one file: an HTTP response (its `ok`
      flag, status code and body text), or a failure to send at all. */
  datatype FileResponse = Answered(ok: bool, status: int, text: string) | NetworkFailure(message: string)

  datatype FileResult = Fulfilled(file: string) | Rejected(file: string, error: string)

  /** The request posted for each file. */
  datatype UploadRequest = UploadRequest(url: string, authorization: string, userId: string, file: File)

  predicate IsFulfilled(r: FileResult) {
    r.Fulfilled?
  }

  predicate IsRejected(r: FileResult) {
    r.Rejected?
  }

  predicate IsOk(resp: FileResponse) {
    resp.Answered? && resp.ok
  }

  /** The outcome for one file: fulfilled iff the response is ok. A non-ok
      response fails with its body text, or "HTTP <status>" if that is empty. */
  function UploadOne(name: string, resp: FileResponse): (r: FileResult)
    ensures r.file == name
    ensures r.Fulfilled? <==> IsOk(resp)
    ensures resp.Answered? && !resp.ok ==>
      r.error == (if resp.text != "" then resp.text else "HTTP " + IntToString(resp.status))
    ensures resp.NetworkFailure? ==> r.error == resp.message
  {
    match resp
    case NetworkFailure(message) => Rejected(name, message)
    case Answered(ok, status, text) =>
      if ok then Fulfilled(name) else Rejected(name, OrElse(Some(text), "HTTP " + IntToString(status)))
  }

  /** The outcomes of all files, in input order. */
  function Results(files: seq<File>, responses: seq<FileResponse>): (r: seq<FileResult>)
    requires |files| == |responses|
    ensures |r| == |files|
    ensures forall i :: 0 <= i < |r| ==> r[i] == UploadOne(files[i].name, responses[i])
  {
    if files == [] then [] else [UploadOne(files[0].name, responses[0])] + Results(files[1..], responses[1..])
  }

  /** The toast each file raises when its outcome is known. */
  function FileToast(r: FileResult): Toast {
    match r
    case Fulfilled(file) => SuccessToast(file + " uploaded successfully")
    case Rejected(file, error) => ErrorToast(file + " failed: " + error)
  }

  function SuccessCount(results: seq<FileResult>): nat {
    Count(results, IsFulfilled)
  }

  /** `results.length - successCount`. */
  function FailCount(results: seq<FileResult>): int {
    |results| - SuccessCount(results)
  }

  /** The closing summary toasts: one success toast iff something succeeded,
      one error toast iff something failed. */
  function SummaryToasts(results: seq<FileResult>): (r: seq<Toast>)
    ensures |r| <= 2
    ensures SuccessToast(NatToString(SuccessCount(results)) + " file(s) uploaded successfully") in r <==> SuccessCount(results) > 0
    ensures (exists t :: t in r && t.kind == ErrorKind) <==> FailCount(results) > 0
  {
    (if SuccessCount(results) > 0 then [SuccessToast(NatToString(SuccessCount(results)) + " file(s) uploaded successfully")] else [])
    + (if FailCount(results) > 0 then [ErrorToast(IntToString(FailCount(results)) + " file(s) failed to upload")] else [])
  }

  /** The upload endpoint of a case. */
  function UploadUrl(baseUrl: string, caseId: int): string {
    baseUrl + "/cases/" + IntToString(caseId) + "/documents"
  }

  /** The number of successes is the number of ok responses. */
  lemma {:induction false} SuccessCountIsOkCount(files: seq<File>, responses: seq<FileResponse>)
    requires |files| == |responses|
    ensures SuccessCount(Results(files, responses)) == Count(responses, IsOk)
  {
    if files != [] {
      SuccessCountIsOkCount(files[1..], responses[1..]);
      assert Results(files, responses)[1..] == Results(files[1..], responses[1..]);
    }
  }

  /** The failure count is the number of rejected outcomes, so the two counts
      add up to the number of files. */
  lemma FailCountIsRejectedCount(results: seq<FileResult>)
    ensures FailCount(results) == Count(results, IsRejected)
    ensures SuccessCount(results) + FailCount(results) == |results|
  {
    CountComplement(results, IsFulfilled, IsRejected);
  }

  /** Every file fails exactly when no response is ok; every file succeeds
      exactly when every response is ok. */
  lemma AllOrNothing(files: seq<File>, responses: seq<FileResponse>)
    requires |files| == |responses|
    ensures SuccessCount(Results(files, responses)) == 0 <==> forall i :: 0 <= i < |responses| ==> !IsOk(responses[i])
    ensures FailCount(Results(files, responses)) == 0 <==> forall i :: 0 <= i < |responses| ==> IsOk(responses[i])
  {
    SuccessCountIsOkCount(files, responses);
    CountZeroIff(responses, IsOk);
    CountAllIff(responses, IsOk);
  }

  /** Three files whose second one fails with an empty body and status 500:
      two successes, one failure reported as "HTTP 500", and both summary
      toasts, reading "2 file(s) uploaded successfully" and "1 file(s) failed
      to upload". */
  lemma ThreeFilesOneFailing(a: File, b: File, c: File)
    ensures var results := Results([a, b, c], [Answered(true, 201, ""), Answered(false, 500, ""), Answered(true, 201, "")]);
      && results == [Fulfilled(a.name), Rejected(b.name, "HTTP " + IntToString(500)), Fulfilled(c.name)]
      && SuccessCount(results) == 2 && FailCount(results) == 1
      && SummaryToasts(results) == [SuccessToast(NatToString(2) + " file(s) uploaded successfully"),
                                    ErrorToast(IntToString(1) + " file(s) failed to upload")]
    ensures IntToString(500) == "500" && NatToString(2) == "2" && IntToString(1) == "1"
  {
    var responses := [Answered(true, 201, ""), Answered(false, 500, ""), Answered(true, 201, "")];
    var results := Results([a, b, c], responses);
    assert results == [Fulfilled(a.name), Rejected(b.name, "HTTP " + IntToString(500)), Fulfilled(c.name)];
    TwoFulfilledOneRejected(a.name, b.name, c.name, "HTTP " + IntToString(500));
    assert NatToString(5) == "5";
    assert NatToString(50) == "50";
  }

  lemma TwoFulfilledOneRejected(x: string, y: string, z: string, e: string)
    ensures SuccessCount([Fulfilled(x), Rejected(y, e), Fulfilled(z)]) == 2
    ensures FailCount([Fulfilled(x), Rejected(y, e), Fulfilled(z)]) == 1
  {
    var results := [Fulfilled(x), Rejected(y, e), Fulfilled(z)];
    assert results[1..][1..] == [Fulfilled(z)];
    assert Filter(results[1..][1..], IsFulfilled) == [Fulfilled(z)];
    assert Filter(results[1..], IsFulfilled) == [Fulfilled(z)];
    assert Filter(results, IsFulfilled) == [Fulfilled(x), Fulfilled(z)];
  }

  class UploadTracker {
    var uploads: map<int, UploadState>

    constructor ()
      ensures uploads == map[]
    {
      uploads := map[];
    }

    /** `getCaseUploadStatus`: the recorded state, or idle for an unknown case. */
    function Status(caseId: int): (r: UploadState)
      reads this
      ensures caseId in uploads ==> r == uploads[caseId]
      ensures caseId !in uploads ==> r == Idle
    {
      if caseId in uploads then uploads[caseId] else Idle
    }

    /** Marks the case as uploading these file names. */
    method Begin(caseId: int, names: seq<string>)
      modifies this
      ensures uploads == old(uploads)[caseId := UploadState(true, names)]
      ensures Status(caseId).isUploading
      ensures forall k :: k != caseId ==> Status(k) == old(Status(k))
    {
      uploads := uploads[caseId := UploadState(true, names)];
    }

    /** Marks the case as idle again. */
    method Finish(caseId: int)
      modifies this
      ensures uploads == old(uploads)[caseId := Idle]
      ensures forall k :: k != caseId ==> Status(k) == old(Status(k))
    {
      uploads := uploads[caseId := Idle];
    }

    /** `startUpload(caseId, files, user)`; `responses[i]` is the transport's
        answer to the request for `files[i]`. Returns the requests sent, the
        per-file outcomes and the toasts raised. */
    method StartUpload(baseUrl: string, caseId: int, files: seq<File>, user: Option<User>,
                       responses: seq<FileResponse>)
      returns (requests: seq<UploadRequest>, results: seq<FileResult>, toasts: seq<Toast>)
      requires |responses| == |files|
      modifies this
      ensures files == [] ==> uploads == old(uploads) && requests == [] && results == []
                              && toasts == [ErrorToast("No files selected")]
      ensures files != [] ==> uploads == old(uploads)[caseId := Idle]
      ensures |requests| == |files|
      ensures forall i :: 0 <= i < |requests| ==>
        requests[i] == UploadRequest(UploadUrl(baseUrl, caseId), UseApi.BearerHeader, UseApi.UserIdHeader(user), files[i])
      ensures files != [] ==> results == Results(files, responses)
      ensures files != [] ==> toasts == seq(|results|, i requires 0 <= i < |results| => FileToast(results[i]))
                                        + SummaryToasts(results)
    {
      if files == [] {
        return [], [], [ErrorToast("No files selected")];
      }
      Begin(caseId, seq(|files|, i requires 0 <= i < |files| => files[i].name));
      requests := seq(|files|, i requires 0 <= i < |files| =>
        UploadRequest(UploadUrl(baseUrl, caseId), UseApi.BearerHeader, UseApi.UserIdHeader(user), files[i]));
      results := Results(files, responses);
      toasts := seq(|results|, i requires 0 <= i < |results| => FileToast(results[i])) + SummaryToasts(results);
      Finish(caseId);
    }
  }
}
