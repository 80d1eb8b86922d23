/** The document summary panel: status partitions and search over a case's
    documents, automatic selection of the first completed document, and the
    per-document summary cache with its load-once guard. The summary request
    is an input: the result the API gives for a path (`None` when the request
    failed). */
module DocSummary {
  import opened Wrappers
  import opened Text
  import opened Seqs
  import opened ApiModels

  /** The fields of the summary response that are read. */
  datatype SummaryResponse = SummaryResponse(docSummary: Option<string>, uploadedAt: string)

  /** The lowercased processing state. */
  function State(d: Document): string {
    ToLower(d.processState)
  }

  function HasState(wanted: string): Document -> bool {
    (d: Document) => State(d) == wanted
  }

  /** The documents whose lowercased state is `wanted`, in order. */
  function Partition(docs: seq<Document>, wanted: string): (r: seq<Document>)
    ensures forall i :: 0 <= i < |r| ==> State(r[i]) == wanted
    ensures forall d :: d in r <==> d in docs && State(d) == wanted
    ensures IsSubsequence(r, docs)
  {
    FilterExact(docs, HasState(wanted));
    FilterIsSubsequence(docs, HasState(wanted));
    Filter(docs, HasState(wanted))
  }

  function Completed(docs: seq<Document>): seq<Document> { Partition(docs, "completed") }
  function Processing(docs: seq<Document>): seq<Document> { Partition(docs, "processing") }
  function Errored(docs: seq<Document>): seq<Document> { Partition(docs, "error") }

  /** A document in the uploading state is in none of the three partitions. */
  lemma UploadingInNoPartition(docs: seq<Document>, d: Document)
    requires State(d) == "uploading"
    ensures d !in Completed(docs) && d !in Processing(docs) && d !in Errored(docs)
  {
    FilterMembership(docs, HasState("completed"), d);
    FilterMembership(docs, HasState("processing"), d);
    FilterMembership(docs, HasState("error"), d);
  }

  /** The search-and-status test of the document list. */
  predicate Matches(d: Document, query: string, filter: string) {
    Contains(ToLower(d.filename), ToLower(query)) && (filter == "all" || State(d) == filter)
  }

  function FilteredDocuments(docs: seq<Document>, query: string, filter: string): (r: seq<Document>)
    ensures |r| <= |docs|
    ensures forall i :: 0 <= i < |r| ==> Matches(r[i], query, filter)
  {
    Filter(docs, (d: Document) => Matches(d, query, filter))
  }

  /** A document is listed iff it matches, and the list keeps the order of
      the documents. */
  lemma FilteredDocumentsExact(docs: seq<Document>, query: string, filter: string)
    ensures forall d :: d in FilteredDocuments(docs, query, filter) <==> d in docs && Matches(d, query, filter)
    ensures IsSubsequence(FilteredDocuments(docs, query, filter), docs)
  {
    var p := (d: Document) => Matches(d, query, filter);
    forall d ensures d in Filter(docs, p) <==> d in docs && Matches(d, query, filter) {
      FilterMembership(docs, p, d);
    }
    FilterIsSubsequence(docs, p);
  }

  /** An empty query under the "all" filter lists every document. */
  lemma EmptyQueryListsAll(docs: seq<Document>)
    ensures FilteredDocuments(docs, "", "all") == docs
  {
    forall i | 0 <= i < |docs| ensures Matches(docs[i], "", "all") {
      assert [] <= ToLower(docs[i].filename);
    }
    FilterKeepsAll(docs, (d: Document) => Matches(d, "", "all"));
  }

  /** JavaScript truthiness of a selected id: absent and "" are falsy. */
  predicate Truthy(id: Option<string>) {
    id.Some? && id.value != ""
  }

  /** The auto-select effect: with nothing selected, the first completed
      document's `doc_id` is selected; otherwise the selection stays. */
  function AutoSelect(selected: Option<string>, docs: seq<Document>): (r: Option<string>)
    ensures Truthy(selected) || Completed(docs) == [] ==> r == selected
    ensures !Truthy(selected) && Completed(docs) != [] ==> r == Some(Completed(docs)[0].docId)
  {
    if !Truthy(selected) && |Completed(docs)| > 0 then Some(Completed(docs)[0].docId) else selected
  }

  /** The document auto-selection picks is the first completed one. */
  lemma AutoSelectPicksFirstCompleted(docs: seq<Document>) returns (i: nat)
    requires Completed(docs) != []
    ensures i < |docs| && State(docs[i]) == "completed"
    ensures forall j :: 0 <= j < i ==> State(docs[j]) != "completed"
    ensures AutoSelect(None, docs) == Some(docs[i].docId)
  {
    i := FilterFirst(docs, HasState("completed"));
  }

  /** `documents.find(d => d.id === id)`: the first document whose optional
      `id` equals the given one; a missing id matches nothing. */
  function FindById(docs: seq<Document>, id: Option<string>): (r: Option<Document>)
    ensures r.Some? <==> id.Some? && exists i :: 0 <= i < |docs| && docs[i].id == id
    ensures r.Some? ==> exists i :: 0 <= i < |docs| && docs[i] == r.value && docs[i].id == id
                                   && forall j :: 0 <= j < i ==> docs[j].id != id
  {
    if id.None? || docs == [] then None
    else if docs[0].id == id then Some(docs[0])
    else
      var r := FindById(docs[1..], id);
      assert r.Some? ==> exists i :: 1 <= i < |docs| && docs[i] == r.value && docs[i].id == id
                                   && forall j :: 0 <= j < i ==> docs[j].id != id by {
        if r.Some? {
          var k :| 0 <= k < |docs[1..]| && docs[1..][k] == r.value && docs[1..][k].id == id
                   && forall j :: 0 <= j < k ==> docs[1..][j].id != id;
          assert forall j :: 1 <= j < k + 1 ==> docs[j] == docs[1..][j - 1];
        }
      }
      assert (exists i :: 0 <= i < |docs| && docs[i].id == id) ==> exists i :: 0 <= i < |docs[1..]| && docs[1..][i].id == id by {
        if exists i :: 0 <= i < |docs| && docs[i].id == id {
          var i :| 0 <= i < |docs| && docs[i].id == id;
          assert docs[1..][i - 1].id == id;
        }
      }
      r
  }

  /** The API path of a document's summary. */
  function SummaryPath(caseId: int, docId: string): string {
    "cases/" + IntToString(caseId) + "/documents/" + docId + "/summary"
  }

  /** The word count of a summary: 0 for an absent or empty one, else the
      number of pieces between runs of white space. */
  function WordCount(docSummary: Option<string>): (r: nat)
    ensures docSummary.None? || docSummary.value == "" ==> r == 0
    ensures docSummary.Some? && docSummary.value != "" ==> r == |SplitWs(docSummary.value)| && r >= 1
  {
    if docSummary.Some? && docSummary.value != "" then |SplitWs(docSummary.value)| else 0
  }

  /** Words separated by single spaces are counted exactly. */
  lemma WordCountOfWords(words: seq<string>)
    requires |words| >= 1
    requires forall i :: 0 <= i < |words| ==> words[i] != [] && HasNoWhitespace(words[i])
    ensures WordCount(Some(Join(words, ' '))) == |words|
  {
    SplitWsJoin(words);
    JoinStartsWithFirst(words, ' ');
  }

  /** Leading white space counts as one more word. */
  lemma LeadingSpaceCountsAsWord(w: string)
    requires w != [] && HasNoWhitespace(w)
    ensures WordCount(Some(" " + w)) == 2
  {
    SplitWsWord(w);
    TrimStartAfterRun(" ", w);
  }

  const NoSummaryText := "*No summary available.*"

  /** The summary record built from a response. */
  function BuildSummary(documentId: string, res: SummaryResponse): (r: DocumentSummary)
    ensures r.documentId == documentId && r.generatedAt == res.uploadedAt
    ensures r.summary != ""
    ensures res.docSummary.Some? && res.docSummary.value != "" ==> r.summary == res.docSummary.value
    ensures res.docSummary.None? || res.docSummary.value == "" ==> r.summary == NoSummaryText && r.wordCount == 0
    ensures r.keyPoints == [] && r.confidence == 95
    ensures r.wordCount == WordCount(res.docSummary)
  {
    DocumentSummary(documentId, OrElse(res.docSummary, NoSummaryText), [], 95, res.uploadedAt, WordCount(res.docSummary))
  }

  /** `fetchDocumentSummary(documentId)`: the document is looked up by its
      `id`, its summary requested by its `doc_id`. */
  function FetchSummary(docs: seq<Document>, caseId: int, documentId: string,
                        fetch: string -> Option<SummaryResponse>): (r: Result<DocumentSummary, string>)
    ensures FindById(docs, Some(documentId)).None? ==> r == Failure("Document not found")
    ensures FindById(docs, Some(documentId)).Some? ==>
      var path := SummaryPath(caseId, FindById(docs, Some(documentId)).value.docId);
      && (fetch(path).None? ==> r == Failure("Failed to fetch summary"))
      && (fetch(path).Some? ==> r == Success(BuildSummary(documentId, fetch(path).value)))
    ensures r.Failure? ==> r.error != ""
  {
    match FindById(docs, Some(documentId))
    case None => Failure("Document not found")
    case Some(doc) =>
      match fetch(SummaryPath(caseId, doc.docId))
      case None => Failure("Failed to fetch summary")
      case Some(res) => Success(BuildSummary(documentId, res))
  }

  const LoadFailedText := "Failed to load summary. Please try again."

  class SummaryPanel {
    var selectedDocumentId: Option<string>
    var searchQuery: string
    var filterStatus: string
    var summaries: map<string, DocumentSummary>
    var loading: map<string, bool>
    var errors: map<string, string>

    constructor ()
      ensures selectedDocumentId.None? && searchQuery == "" && filterStatus == "all"
      ensures summaries == map[] && loading == map[] && errors == map[]
    {
      selectedDocumentId := None;
      searchQuery := "";
      filterStatus := "all";
      summaries := map[];
      loading := map[];
      errors := map[];
    }

    predicate IsLoading(id: string)
      reads this
    {
      id in loading && loading[id]
    }

    /** The load-once guard: a cached summary or a load in flight. */
    predicate Settled(id: string)
      reads this
    {
      id in summaries || IsLoading(id)
    }

    /** The auto-select effect. */
    method ApplyAutoSelect(docs: seq<Document>)
      modifies this
      ensures selectedDocumentId == AutoSelect(old(selectedDocumentId), docs)
      ensures summaries == old(summaries) && loading == old(loading) && errors == old(errors)
      ensures searchQuery == old(searchQuery) && filterStatus == old(filterStatus)
    {
      selectedDocumentId := AutoSelect(selectedDocumentId, docs);
    }

    /** The synchronous start of `loadDocumentSummary`: unless the guard
        holds, marks the id as loading and clears its error. */
    method BeginLoad(id: string) returns (started: bool)
      modifies this
      ensures started <==> !old(Settled(id))
      ensures !started ==> summaries == old(summaries) && loading == old(loading) && errors == old(errors)
      ensures started ==> loading == old(loading)[id := true] && errors == old(errors)[id := ""]
                          && summaries == old(summaries)
      ensures selectedDocumentId == old(selectedDocumentId)
      ensures searchQuery == old(searchQuery) && filterStatus == old(filterStatus)
    {
      if Settled(id) {
        return false;
      }
      loading := loading[id := true];
      errors := errors[id := ""];
      started := true;
    }

    /** The completion of a load: the summary or the error is stored, and the
        id is no longer loading. */
    method FinishLoad(id: string, outcome: Result<DocumentSummary, string>)
      modifies this
      ensures loading == old(loading)[id := false]
      ensures outcome.Success? ==> summaries == old(summaries)[id := outcome.value] && errors == old(errors)
      ensures outcome.Failure? ==>
        summaries == old(summaries) && errors == old(errors)[id := OrElse(Some(outcome.error), LoadFailedText)]
      ensures selectedDocumentId == old(selectedDocumentId)
      ensures searchQuery == old(searchQuery) && filterStatus == old(filterStatus)
    {
      match outcome {
        case Success(s) => summaries := summaries[id := s];
        case Failure(e) => errors := errors[id := OrElse(Some(e), LoadFailedText)];
      }
      loading := loading[id := false];
    }

    /** `loadDocumentSummary(id)`. */
    method LoadDocumentSummary(docs: seq<Document>, caseId: int, id: string, fetch: string -> Option<SummaryResponse>)
      modifies this
      ensures old(Settled(id)) ==> summaries == old(summaries) && loading == old(loading) && errors == old(errors)
      ensures !old(Settled(id)) ==>
        && loading == old(loading)[id := false]
        && match FetchSummary(docs, caseId, id, fetch)
           case Success(s) => summaries == old(summaries)[id := s] && errors == old(errors)[id := ""]
           case Failure(e) => summaries == old(summaries) && errors == old(errors)[id := e]
      ensures selectedDocumentId == old(selectedDocumentId)
      ensures searchQuery == old(searchQuery) && filterStatus == old(filterStatus)
    {
      var started := BeginLoad(id);
      if started {
        FinishLoad(id, FetchSummary(docs, caseId, id, fetch));
      }
    }

    /** `handleDocumentSelect(id)`: selects the id, and loads its summary when
        the document with that `id` is completed. */
    method HandleDocumentSelect(docs: seq<Document>, caseId: int, id: string, fetch: string -> Option<SummaryResponse>)
      modifies this
      ensures selectedDocumentId == Some(id)
      ensures var doc := FindById(docs, Some(id));
        !(doc.Some? && State(doc.value) == "completed") ==>
          summaries == old(summaries) && loading == old(loading) && errors == old(errors)
      // a completed document: `loadDocumentSummary(id)`, which leaves the maps
      // alone when the id is settled and otherwise stores the fetch's outcome
      ensures var doc := FindById(docs, Some(id));
        doc.Some? && State(doc.value) == "completed" && old(Settled(id)) ==>
          summaries == old(summaries) && loading == old(loading) && errors == old(errors)
      ensures var doc := FindById(docs, Some(id));
        doc.Some? && State(doc.value) == "completed" && !old(Settled(id)) ==>
          && loading == old(loading)[id := false]
          && match FetchSummary(docs, caseId, id, fetch)
             case Success(s) => summaries == old(summaries)[id := s] && errors == old(errors)[id := ""]
             case Failure(e) => summaries == old(summaries) && errors == old(errors)[id := e]
      // what the panel then shows for a fresh load of a non-empty id
      ensures var doc := FindById(docs, Some(id));
        id != "" && doc.Some? && State(doc.value) == "completed" && !old(Settled(id)) ==>
          && !SelectedIsLoading()
          && match FetchSummary(docs, caseId, id, fetch)
             case Success(s) => SelectedSummary() == Some(s) && SelectedError() == Some("")
             case Failure(e) => SelectedError() == Some(e)
      ensures searchQuery == old(searchQuery) && filterStatus == old(filterStatus)
    {
      selectedDocumentId := Some(id);
      var doc := FindById(docs, Some(id));
      if doc.Some? && State(doc.value) == "completed" {
        LoadDocumentSummary(docs, caseId, id, fetch);
      }
    }

    /** The selected document: looked up by `id`, not `doc_id`. */
    function SelectedDocument(docs: seq<Document>): Option<Document>
      reads this
    {
      FindById(docs, selectedDocumentId)
    }

    /** `selectedSummary`: the stored summary of the selected id, if the id
        is non-empty and has one. */
    function SelectedSummary(): (r: Option<DocumentSummary>)
      reads this
      ensures r.Some? <==> Truthy(selectedDocumentId) && selectedDocumentId.value in summaries
      ensures r.Some? ==> r.value == summaries[selectedDocumentId.value]
    {
      if Truthy(selectedDocumentId) && selectedDocumentId.value in summaries
      then Some(summaries[selectedDocumentId.value]) else None
    }

    /** `isLoadingSummary`: a load of the selected id is in flight, which is
        also what keeps a second select from fetching again. */
    function SelectedIsLoading(): (r: bool)
      reads this
      ensures r ==> selectedDocumentId.Some? && selectedDocumentId.value != "" && Settled(selectedDocumentId.value)
      ensures r <==> Truthy(selectedDocumentId) && selectedDocumentId.value in loading && loading[selectedDocumentId.value]
    {
      Truthy(selectedDocumentId) && IsLoading(selectedDocumentId.value)
    }

    /** `summaryError`: the stored error text of the selected id, if the id
        is non-empty and has one. */
    function SelectedError(): (r: Option<string>)
      reads this
      ensures r.Some? <==> Truthy(selectedDocumentId) && selectedDocumentId.value in errors
      ensures r.Some? ==> r.value == errors[selectedDocumentId.value]
    {
      if Truthy(selectedDocumentId) && selectedDocumentId.value in errors
      then Some(errors[selectedDocumentId.value]) else None
    }
  }

  /** The error stored after a failed load is never the generic fallback:
      every failure carries its own message. */
  lemma LoadErrorsAreSpecific(docs: seq<Document>, caseId: int, id: string, fetch: string -> Option<SummaryResponse>)
    ensures var r := FetchSummary(docs, caseId, id, fetch);
      r.Failure? ==>
        && OrElse(Some(r.error), LoadFailedText) == r.error
        && (r.error == "Document not found" || r.error == "Failed to fetch summary")
  {
  }
}
