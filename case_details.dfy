/** The case details page: loading a case's documents from the backend,
    optimistic temporary documents during an upload, and document deletion.
    API results are inputs (`None` when the request failed), and so are the
    byte-size formatter and clock readings. */
module CaseDetails {
  import opened Wrappers
  import opened Text
  import opened Seqs
  import opened ApiModels
  import opened Notify

  /** A document as the backend sends it. */
  datatype BackendDoc = BackendDoc(
    docId: string,
    filename: string,
    mimeType: Option<string>,
    size: int,
    uploadedAt: string,
    processState: string,
    uploadedBy: string)

  /** The fields of the case-detail response that are read. */
  datatype CaseDetailResponse = CaseDetailResponse(documents: Option<seq<BackendDoc>>, documentCount: int)

  /** "PDF" iff the MIME string contains "pdf" (case-sensitively). */
  function MimeLabel(mimeType: Option<string>): (r: string)
    ensures r == "PDF" <==> mimeType.Some? && Contains(mimeType.value, "pdf")
    ensures r != "PDF" ==> r == "Unknown"
  {
    if mimeType.Some? && Contains(mimeType.value, "pdf") then "PDF" else "Unknown"
  }

  /** A backend document as the page holds it: both ids are the backend's
      `doc_id`. */
  function FromBackend(b: BackendDoc, formatSize: int -> string): (d: Document)
    ensures d.id == Some(b.docId) && d.docId == b.docId
    ensures d.filename == b.filename && d.processState == b.processState && d.uploadedBy == b.uploadedBy
    ensures d.mimeType == MimeLabel(b.mimeType)
  {
    Document(Some(b.docId), b.docId, b.filename, MimeLabel(b.mimeType), Formatted(formatSize(b.size)),
             b.uploadedAt, b.processState, b.uploadedBy)
  }

  /** The documents of a response; a missing list is empty. */
  function DocumentsOf(resp: CaseDetailResponse, formatSize: int -> string): (r: seq<Document>)
    ensures resp.documents.None? ==> r == []
    ensures resp.documents.Some? ==>
      |r| == |resp.documents.value|
      && forall i :: 0 <= i < |r| ==> r[i] == FromBackend(resp.documents.value[i], formatSize)
  {
    var docs := resp.documents.GetOr([]);
    seq(|docs|, i requires 0 <= i < |docs| => FromBackend(docs[i], formatSize))
  }

  /** Every document of a loaded case is addressable by its `id`, which is
      its `doc_id`. */
  lemma LoadedIdsAreDocIds(resp: CaseDetailResponse, formatSize: int -> string)
    ensures forall d :: d in DocumentsOf(resp, formatSize) ==> d.id == Some(d.docId)
  {
  }

  /** The placeholder shown for a file while it uploads. `now` is the clock
      reading used in its id, `isoNow` the upload time. */
  function TempDoc(f: File, now: string, isoNow: string): (d: Document)
    ensures d.id == Some(d.docId) && d.docId == "temp-" + now + "-" + f.name
    ensures d.filename == f.name && d.processState == "UPLOADING" && d.uploadedBy == "Anonymous"
    ensures d.size == Bytes(f.size)
  {
    var id := "temp-" + now + "-" + f.name;
    Document(Some(id), id, f.name, MimeLabel(Some(f.mimeType)), Bytes(f.size), isoNow, "UPLOADING", "Anonymous")
  }

  function TempDocs(files: seq<File>, now: string, isoNow: string): (r: seq<Document>)
    ensures |r| == |files|
    ensures forall i :: 0 <= i < |r| ==> r[i] == TempDoc(files[i], now, isoNow)
  {
    seq(|files|, i requires 0 <= i < |files| => TempDoc(files[i], now, isoNow))
  }

  /** The API path of one document of a case. */
  /** The path a delete is sent to. It names the case and ends with the
      document id. */
  function DocumentPath(caseId: int, docId: string): (r: string)
    ensures "cases/" + IntToString(caseId) + "/documents/" <= r
    ensures |r| >= |docId| && r[|r| - |docId|..] == docId
  {
    "cases/" + IntToString(caseId) + "/documents/" + docId
  }

  /** Different documents of a case are deleted through different paths. */
  lemma DocumentPathInjective(caseId: int, a: string, b: string)
    ensures DocumentPath(caseId, a) == DocumentPath(caseId, b) <==> a == b
  {
    var prefix := "cases/" + IntToString(caseId) + "/documents/";
    if DocumentPath(caseId, a) == DocumentPath(caseId, b) {
      assert a == DocumentPath(caseId, a)[|prefix|..];
      assert b == DocumentPath(caseId, b)[|prefix|..];
    }
  }

  /** The case page. `caseData` is the `case` property: every case the page
      reports goes to the layout's `handleCaseUpdated`, which selects it, so
      the page is rendered again with the case it last reported. */
  class CaseDetailsPage {
    var documents: seq<Document>
    var caseData: Case

    constructor (caseData: Case)
      ensures documents == [] && this.caseData == caseData
    {
      documents := [];
      this.caseData := caseData;
    }

    /** `loadCase`: on a result, the documents are replaced and the parent
        receives the case with the response's document count, which comes
        back as the page's case. */
    method LoadCase(result: Option<CaseDetailResponse>, formatSize: int -> string) returns (updated: Option<Case>)
      modifies this
      ensures result.Some? ==>
        documents == DocumentsOf(result.value, formatSize)
        && updated == Some(old(caseData).(documentCount := result.value.documentCount))
        && caseData == updated.value
      ensures result.None? ==> documents == old(documents) && updated.None? && caseData == old(caseData)
    {
      if result.None? {
        return None;
      }
      documents := DocumentsOf(result.value, formatSize);
      updated := Some(caseData.(documentCount := result.value.documentCount));
      caseData := updated.value;
    }

    /** `handleDocumentUpload`: placeholders are appended after the existing
        documents, then the case is reloaded. */
    method HandleDocumentUpload(files: seq<File>, now: string, isoNow: string,
                                result: Option<CaseDetailResponse>, formatSize: int -> string)
      returns (updated: Option<Case>, toasts: seq<Toast>)
      modifies this
      ensures result.None? ==>
        documents == old(documents) + TempDocs(files, now, isoNow) && updated.None? && caseData == old(caseData)
      ensures result.Some? ==>
        documents == DocumentsOf(result.value, formatSize)
        && updated == Some(old(caseData).(documentCount := result.value.documentCount))
        && caseData == updated.value
      ensures toasts == [SuccessToast("Document uploaded successfully")]
    {
      documents := documents + TempDocs(files, now, isoNow);
      updated := LoadCase(result, formatSize);
      toasts := [SuccessToast("Document uploaded successfully")];
    }

    /** `handleDeleteDocument(docId)`. `succeeded` is whether the API result
        was non-null. Returns the path of the request and the case handed to
        the parent, which becomes the page's case: each successful delete
        counts down from the count the previous one reported. */
    method HandleDeleteDocument(docId: string, succeeded: bool)
      returns (path: string, updated: Option<Case>, toasts: seq<Toast>)
      modifies this
      ensures path == DocumentPath(old(caseData).caseId, docId)
      ensures succeeded ==>
        && documents == Filter(old(documents), (d: Document) => d.docId != docId)
        && updated == Some(old(caseData).(documentCount := old(caseData).documentCount - 1))
        && caseData == updated.value
        && toasts == [SuccessToast("Document deleted successfully")]
      ensures !succeeded ==> documents == old(documents) && updated.None? && toasts == [] && caseData == old(caseData)
      ensures caseData.caseId == old(caseData).caseId
    {
      path := DocumentPath(caseData.caseId, docId);
      if !succeeded {
        return path, None, [];
      }
      documents := Filter(documents, (d: Document) => d.docId != docId);
      updated := Some(caseData.(documentCount := caseData.documentCount - 1));
      caseData := updated.value;
      toasts := [SuccessToast("Document deleted successfully")];
    }
  }

  /** Deletion removes every document with the id and keeps the others in
      order, while the count drops by exactly one however many were removed. */
  lemma DeleteRemovesAllMatching(docs: seq<Document>, docId: string)
    ensures forall d :: d in Filter(docs, (x: Document) => x.docId != docId) <==> d in docs && d.docId != docId
    ensures IsSubsequence(Filter(docs, (x: Document) => x.docId != docId), docs)
  {
    var keep := (x: Document) => x.docId != docId;
    forall d ensures d in Filter(docs, keep) <==> d in docs && d.docId != docId {
      FilterMembership(docs, keep, d);
    }
    FilterIsSubsequence(docs, keep);
  }
}
