/** The body of the summary panel: which one view is shown for the selected
    document, its summary, the loading flag and the error. */
module SummaryContent {
  import opened Wrappers
  import opened ApiModels
  import opened DocSummary

  /** The views, in the order they are tried. The retry and generate views
      carry the id their button loads. */
  datatype ContentView =
    | ChooseDocument
    | DocumentProcessing
    | ProcessingError
    | Generating
    | Failed(message: string, retryId: string)
    | GeneratePrompt(generateId: string)
    | Rendered(summary: DocumentSummary)

  /** JavaScript truthiness of an error message: absent and "" are falsy. */
  predicate HasError(e: Option<string>) {
    e.Some? && e.value != ""
  }

  function Content(doc: Option<Document>, summary: Option<DocumentSummary>, isLoading: bool,
                   error: Option<string>): (v: ContentView)
    ensures v == ChooseDocument <==> doc.None?
    ensures v == DocumentProcessing <==> doc.Some? && State(doc.value) == "processing"
    ensures v == ProcessingError <==> doc.Some? && State(doc.value) == "error"
    ensures v == Generating <==>
      doc.Some? && State(doc.value) != "processing" && State(doc.value) != "error" && isLoading
    ensures v.Failed? <==>
      doc.Some? && State(doc.value) != "processing" && State(doc.value) != "error" && !isLoading && HasError(error)
    ensures v.GeneratePrompt? <==>
      doc.Some? && State(doc.value) != "processing" && State(doc.value) != "error" && !isLoading
      && !HasError(error) && summary.None?
    ensures v.Rendered? <==>
      doc.Some? && State(doc.value) != "processing" && State(doc.value) != "error" && !isLoading
      && !HasError(error) && summary.Some?
    ensures v.Failed? ==> v.message == error.value && v.retryId == doc.value.docId
    ensures v.GeneratePrompt? ==> v.generateId == doc.value.docId
    ensures v.Rendered? ==> v.summary == summary.value
  {
    if doc.None? then ChooseDocument
    else if State(doc.value) == "processing" then DocumentProcessing
    else if State(doc.value) == "error" then ProcessingError
    else if isLoading then Generating
    else if HasError(error) then Failed(error.value, doc.value.docId)
    else if summary.None? then GeneratePrompt(doc.value.docId)
    else Rendered(summary.value)
  }

  /** An empty error message is no error. */
  lemma EmptyErrorIsNoError(doc: Option<Document>, summary: Option<DocumentSummary>, isLoading: bool)
    ensures Content(doc, summary, isLoading, Some("")) == Content(doc, summary, isLoading, None)
  {
  }

  /** Uploading and completed documents pass the state checks: while loading
      they show the generating view. */
  lemma UploadingReachesLoading(d: Document, summary: Option<DocumentSummary>, error: Option<string>)
    requires d.processState == "UPLOADING" || d.processState == "COMPLETED"
    ensures Content(Some(d), summary, true, error) == Generating
  {
    assert State(d) == "uploading" || State(d) == "completed";
  }
}
