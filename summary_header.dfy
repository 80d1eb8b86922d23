/** The header of the summary panel: shown only for a completed document,
    with Export and Refresh actions once a summary exists. */
module SummaryHeader {
  import opened Wrappers
  import opened ApiModels
  import opened DocSummary

  /** The two actions, the ids they pass, and whether Refresh is disabled. */
  datatype HeaderActions = HeaderActions(exportId: string, refreshId: string, refreshDisabled: bool)

  datatype HeaderView = NoHeader | Header(filename: string, actions: Option<HeaderActions>)

  function HeaderOf(doc: Option<Document>, summary: Option<DocumentSummary>, isLoading: bool): (v: HeaderView)
    ensures v.Header? <==> doc.Some? && State(doc.value) == "completed"
    ensures v.Header? ==> v.filename == doc.value.filename
    ensures v.Header? ==> (v.actions.Some? <==> summary.Some?)
    ensures v.Header? && v.actions.Some? ==>
      v.actions.value == HeaderActions(doc.value.docId, doc.value.docId, isLoading)
  {
    if doc.None? || State(doc.value) != "completed" then NoHeader
    else Header(doc.value.filename,
                if summary.Some? then Some(HeaderActions(doc.value.docId, doc.value.docId, isLoading)) else None)
  }
}
