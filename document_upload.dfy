/** The document upload dialog: screening of picked files, the selection and
    URL lists, and the upload action. Identifiers made from the clock and a
    random number are inputs; URL parsing is an input (the pathname of a URL
    that parses, or nothing). */
module DocumentUpload {
  import opened Wrappers
  import opened Text
  import opened Seqs
  import opened ApiModels
  import opened Notify
  import opened AuthStore
  import UseApi
  import UploadStore

  /** The largest accepted file: ten binary gigabytes. */
  const MaxFileBytes := 10 * 1024 * 1024 * 1024

  const PdfType := "application/pdf"

  /** The verdict on one picked file; the first failing check decides. */
  datatype Check = Accepted | NotPdf | TooLarge | AlreadySelected | AlreadyInCase

  /** A selected file with the identifier it was given. */
  datatype SelectedFile = SelectedFile(id: string, file: File)

  datatype UrlItem = UrlItem(id: string, url: string, name: string)

  datatype Mode = FileMode | UrlMode

  /** What sending one file's request produced: a response (of any status),
      or a failure to send with its message. */
  datatype FetchOutcome = Responded | FetchFailed(message: string)

  predicate SameFile(a: File, b: File) {
    a.name == b.name && a.size == b.size
  }

  predicate InSelection(f: File, selected: seq<SelectedFile>) {
    exists i :: 0 <= i < |selected| && SameFile(selected[i].file, f)
  }

  predicate InCase(f: File, existing: seq<Document>) {
    exists i :: 0 <= i < |existing| && existing[i].filename == f.name
  }

  /** The four checks, in order, against the selection as it was before the
      drop and the documents already in the case. */
  function Screen(f: File, selected: seq<SelectedFile>, existing: seq<Document>): (c: Check)
    ensures c == Accepted <==>
      f.mimeType == PdfType && f.size <= MaxFileBytes && !InSelection(f, selected) && !InCase(f, existing)
    ensures c == NotPdf <==> f.mimeType != PdfType
    ensures c == TooLarge <==> f.mimeType == PdfType && f.size > MaxFileBytes
    ensures c == AlreadySelected <==> f.mimeType == PdfType && f.size <= MaxFileBytes && InSelection(f, selected)
    ensures c == AlreadyInCase <==>
      f.mimeType == PdfType && f.size <= MaxFileBytes && !InSelection(f, selected) && InCase(f, existing)
  {
    if f.mimeType != PdfType then NotPdf
    else if f.size > MaxFileBytes then TooLarge
    else if InSelection(f, selected) then AlreadySelected
    else if InCase(f, existing) then AlreadyInCase
    else Accepted
  }

  /** The error toast for a rejected file. */
  function RejectionToast(f: File, c: Check): Toast {
    match c
    case Accepted => ErrorToast("")
    case NotPdf => ErrorToast(f.name + " is not a PDF file")
    case TooLarge => ErrorToast(f.name + " is too large. Maximum size is 100MB")
    case AlreadySelected => ErrorToast(f.name + " is already selected")
    case AlreadyInCase => ErrorToast(f.name + " already exists in this case")
  }

  /** The picked files paired with their fresh identifiers. */
  function Tag(files: seq<File>, ids: seq<string>): (r: seq<SelectedFile>)
    requires |ids| == |files|
    ensures |r| == |files|
    ensures forall i :: 0 <= i < |r| ==> r[i] == SelectedFile(ids[i], files[i])
  {
    seq(|files|, i requires 0 <= i < |files| => SelectedFile(ids[i], files[i]))
  }

  /** The name of a URL item: the last "/"-segment of its pathname, or
      "Document" when that segment is empty. */
  function UrlName(pathname: string): (r: string)
    ensures r != ""
  {
    var segments := Split(pathname, '/');
    OrElse(Some(segments[|segments| - 1]), "Document")
  }

  /** For a pathname made of "/"-separated segments, the name is the last one. */
  lemma UrlNameIsLastSegment(segments: seq<string>)
    requires |segments| >= 1
    requires forall i :: 0 <= i < |segments| ==> '/' !in segments[i]
    ensures segments[|segments| - 1] != "" ==> UrlName(Join(segments, '/')) == segments[|segments| - 1]
    ensures segments[|segments| - 1] == "" ==> UrlName(Join(segments, '/')) == "Document"
  {
    SplitJoin(segments, '/');
    UrlNameOfParts(Join(segments, '/'), segments);
  }

  lemma UrlNameOfParts(pathname: string, parts: seq<string>)
    requires |parts| >= 1 && Split(pathname, '/') == parts
    ensures UrlName(pathname) == OrElse(Some(parts[|parts| - 1]), "Document")
  {
  }

  /** Two copies of an acceptable file in the same drop are both accepted:
      duplicates are only looked for in the earlier selection. */
  lemma DuplicatesInOneDropAccepted(f: File, selected: seq<SelectedFile>, existing: seq<Document>)
    requires Screen(f, selected, existing) == Accepted
    ensures Filter([f, f], (g: File) => Screen(g, selected, existing) == Accepted) == [f, f]
  {
    assert [f, f][1..] == [f];
  }

  /** The size limit is inclusive, and it is ten gigabytes, not ten megabytes. */
  lemma SizeLimit(name: string, selected: seq<SelectedFile>, existing: seq<Document>)
    requires !InCase(File(name, PdfType, MaxFileBytes), existing)
    requires forall i :: 0 <= i < |selected| ==> selected[i].file.name != name
    ensures MaxFileBytes == 10737418240
    ensures Screen(File(name, PdfType, MaxFileBytes), selected, existing) == Accepted
    ensures Screen(File(name, PdfType, MaxFileBytes + 1), selected, existing) == TooLarge
    ensures Screen(File(name, PdfType, 100 * 1024 * 1024 + 1), selected, existing) != TooLarge
  {
  }

  /** The acceptance test `handleFiles` filters with. */
  function IsAccepted(selected: seq<SelectedFile>, existing: seq<Document>): SelectedFile -> bool {
    (s: SelectedFile) => Screen(s.file, selected, existing) == Accepted
  }

  predicate Rejected(f: File, selected: seq<SelectedFile>, existing: seq<Document>) {
    Screen(f, selected, existing) != Accepted
  }

  /** One toast per rejected file, in input order, naming the first failing check. */
  function Rejections(files: seq<File>, selected: seq<SelectedFile>, existing: seq<Document>): (r: seq<Toast>)
    ensures |r| == Count(files, (f: File) => Rejected(f, selected, existing))
    ensures forall i :: 0 <= i < |r| ==> r[i].kind == ErrorKind
  {
    if files == [] then []
    else
      var c := Screen(files[0], selected, existing);
      (if c != Accepted then [RejectionToast(files[0], c)] else []) + Rejections(files[1..], selected, existing)
  }

  /** The request posted for one selected file. */
  function FileRequest(baseUrl: string, caseId: int, user: Option<User>, f: SelectedFile): UploadStore.UploadRequest {
    UploadStore.UploadRequest(UploadStore.UploadUrl(baseUrl, caseId), UseApi.BearerHeader, UseApi.UserIdHeader(user), f.file)
  }

  /** The loop of `handleUpload`: one request per file, in order, stopping at
      the first failure to send. Returns the requests sent and the message of
      that failure, if any. */
  method SendFiles(baseUrl: string, caseId: int, user: Option<User>, files: seq<SelectedFile>, outcomes: seq<FetchOutcome>)
    returns (sent: seq<UploadStore.UploadRequest>, failure: Option<string>)
    requires |outcomes| == |files|
    ensures |sent| <= |files|
    ensures forall i :: 0 <= i < |sent| ==> sent[i] == FileRequest(baseUrl, caseId, user, files[i])
    ensures failure.None? <==> forall i :: 0 <= i < |outcomes| ==> outcomes[i].Responded?
    ensures failure.None? ==> |sent| == |files|
    ensures failure.Some? ==>
      && 1 <= |sent| && (forall i :: 0 <= i < |sent| - 1 ==> outcomes[i].Responded?)
      && outcomes[|sent| - 1].FetchFailed? && failure.value == outcomes[|sent| - 1].message
  {
    sent := [];
    var i := 0;
    while i < |files|
      invariant 0 <= i <= |files|
      invariant |sent| == i
      invariant forall j :: 0 <= j < i ==> outcomes[j].Responded?
      invariant forall j :: 0 <= j < i ==> sent[j] == FileRequest(baseUrl, caseId, user, files[j])
    {
      sent := sent + [FileRequest(baseUrl, caseId, user, files[i])];
      if outcomes[i].FetchFailed? {
        return sent, Some(outcomes[i].message);
      }
      i := i + 1;
    }
    failure := None;
  }

  class UploadDialog {
    var selectedFiles: seq<SelectedFile>
    var isUploading: bool
    var mode: Mode
    var urlInput: string
    var urls: seq<UrlItem>

    constructor ()
      ensures selectedFiles == [] && !isUploading && mode == FileMode && urlInput == "" && urls == []
    {
      selectedFiles := [];
      isUploading := false;
      mode := FileMode;
      urlInput := "";
      urls := [];
    }

    /** `handleFiles`: screens the picked files against the current selection
        and the case's documents, appends the accepted ones (tagged with their
        identifiers) in input order, and raises one toast per rejected file. */
    method HandleFiles(files: seq<File>, existing: seq<Document>, ids: seq<string>) returns (toasts: seq<Toast>)
      requires |ids| == |files|
      modifies this
      ensures selectedFiles == old(selectedFiles) + Filter(Tag(files, ids), IsAccepted(old(selectedFiles), existing))
      ensures toasts == Rejections(files, old(selectedFiles), existing)
      ensures isUploading == old(isUploading) && mode == old(mode) && urlInput == old(urlInput) && urls == old(urls)
    {
      toasts := Rejections(files, selectedFiles, existing);
      selectedFiles := selectedFiles + Filter(Tag(files, ids), IsAccepted(selectedFiles, existing));
    }

    /** `removeFile`: drops exactly the selected files with this identifier. */
    method RemoveFile(fileId: string)
      modifies this
      ensures selectedFiles == Filter(old(selectedFiles), (f: SelectedFile) => f.id != fileId)
      ensures forall f :: f in selectedFiles <==> f in old(selectedFiles) && f.id != fileId
      ensures isUploading == old(isUploading) && mode == old(mode) && urlInput == old(urlInput) && urls == old(urls)
    {
      var keep := (f: SelectedFile) => f.id != fileId;
      forall f ensures f in Filter(selectedFiles, keep) <==> f in selectedFiles && f.id != fileId {
        FilterMembership(selectedFiles, keep, f);
      }
      selectedFiles := Filter(selectedFiles, keep);
    }

    /** `removeUrl`: drops exactly the URL items with this identifier. */
    method RemoveUrl(urlId: string)
      modifies this
      ensures urls == Filter(old(urls), (u: UrlItem) => u.id != urlId)
      ensures forall u :: u in urls <==> u in old(urls) && u.id != urlId
      ensures selectedFiles == old(selectedFiles) && isUploading == old(isUploading) && mode == old(mode)
      ensures urlInput == old(urlInput)
    {
      var keep := (u: UrlItem) => u.id != urlId;
      forall u ensures u in Filter(urls, keep) <==> u in urls && u.id != urlId {
        FilterMembership(urls, keep, u);
      }
      urls := Filter(urls, keep);
    }

    /** `addUrl`. `pathname` is the pathname of the URL typed in, or `None`
        if it does not parse. Blank or unparsable input raises a toast and
        changes nothing; otherwise the trimmed URL is appended under its name
        and the input is cleared. */
    method AddUrl(pathname: Option<string>, id: string) returns (toasts: seq<Toast>)
      modifies this
      ensures IsBlank(old(urlInput)) || pathname.None? ==>
        toasts == [ErrorToast("Please enter a valid URL")] && urls == old(urls) && urlInput == old(urlInput)
      ensures !IsBlank(old(urlInput)) && pathname.Some? ==>
        && toasts == []
        && urls == old(urls) + [UrlItem(id, Trim(old(urlInput)), UrlName(pathname.value))]
        && urlInput == ""
      ensures selectedFiles == old(selectedFiles) && isUploading == old(isUploading) && mode == old(mode)
    {
      TrimEmptyIffBlank(urlInput);
      if Trim(urlInput) == "" || pathname.None? {
        return [ErrorToast("Please enter a valid URL")];
      }
      urls := urls + [UrlItem(id, Trim(urlInput), UrlName(pathname.value))];
      urlInput := "";
      toasts := [];
    }

    /** `handleUpload`. In file mode, `outcomes[i]` is what sending the
        request for the i-th selected file produced; requests go out one at a
        time and the first failure to send stops the loop. Any response, of
        any status, counts as success. Returns the requests sent, the toasts,
        and the files handed to the parent (`None` when the upload is refused
        or fails, in which case the dialog is not closed either). */
    method HandleUpload(baseUrl: string, caseId: int, user: Option<User>, outcomes: seq<FetchOutcome>)
      returns (sent: seq<UploadStore.UploadRequest>, toasts: seq<Toast>, uploaded: Option<seq<SelectedFile>>)
      requires mode == FileMode ==> |outcomes| == |selectedFiles|
      modifies this
      ensures mode == old(mode)
      ensures !((mode == FileMode && old(selectedFiles) == []) || (mode == UrlMode && old(urls) == [])) ==> !isUploading
      // refusals: nothing is sent and nothing changes
      ensures (mode == FileMode && old(selectedFiles) == []) || (mode == UrlMode && old(urls) == []) ==>
        && sent == [] && uploaded.None? && isUploading == old(isUploading)
        && selectedFiles == old(selectedFiles) && urls == old(urls) && urlInput == old(urlInput)
        && toasts == [ErrorToast(if mode == FileMode then "Please select at least one file" else "Please add at least one URL")]
      // the requests are those of a prefix of the selection
      ensures |sent| <= |old(selectedFiles)|
      ensures mode == UrlMode ==> sent == []
      ensures forall i :: 0 <= i < |sent| ==> sent[i] == FileRequest(baseUrl, caseId, user, old(selectedFiles)[i])
      // file mode: success iff every request was sent
      ensures mode == FileMode && old(selectedFiles) != [] ==>
        (uploaded.Some? <==> forall i :: 0 <= i < |outcomes| ==> outcomes[i].Responded?)
      ensures mode == FileMode && uploaded.Some? ==> |sent| == |old(selectedFiles)|
      ensures mode == FileMode && old(selectedFiles) != [] && uploaded.None? ==>
        && 1 <= |sent| && (forall i :: 0 <= i < |sent| - 1 ==> outcomes[i].Responded?)
        && outcomes[|sent| - 1].FetchFailed?
        && toasts == [ErrorToast(OrElse(Some(outcomes[|sent| - 1].message), "Upload failed. Please try again."))]
        && selectedFiles == old(selectedFiles) && urls == old(urls) && urlInput == old(urlInput)
      // success: the old selection goes to the parent and everything is cleared
      ensures mode == UrlMode && old(urls) != [] ==> uploaded.Some?
      ensures uploaded.Some? ==>
        && uploaded.value == old(selectedFiles)
        && selectedFiles == [] && urls == [] && urlInput == ""
        && toasts == [if mode == FileMode
                      then SuccessToast(NatToString(|old(selectedFiles)|) + " document(s) uploaded successfully")
                      else SuccessToast(NatToString(|old(urls)|) + " URL(s) added (mocked)")]
    {
      if mode == FileMode && selectedFiles == [] {
        return [], [ErrorToast("Please select at least one file")], None;
      }
      if mode == UrlMode && urls == [] {
        return [], [ErrorToast("Please add at least one URL")], None;
      }
      isUploading := true;
      sent := [];
      if mode == FileMode {
        var failure;
        sent, failure := SendFiles(baseUrl, caseId, user, selectedFiles, outcomes);
        if failure.Some? {
          toasts := [ErrorToast(OrElse(failure, "Upload failed. Please try again."))];
          isUploading := false;
          return sent, toasts, None;
        }
        toasts := [SuccessToast(NatToString(|selectedFiles|) + " document(s) uploaded successfully")];
      } else {
        toasts := [SuccessToast(NatToString(|urls|) + " URL(s) added (mocked)")];
      }
      uploaded := Some(selectedFiles);
      selectedFiles := [];
      urls := [];
      urlInput := "";
      isUploading := false;
    }
  }
}
