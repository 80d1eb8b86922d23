/** The document list: status icons, badges, filter buttons, and the
    selection and highlighting of rows. */
module DocumentList {
  import opened Wrappers
  import opened Text
  import opened ApiModels
  import opened DocSummary

  datatype StatusIcon = CheckIcon | ClockIcon | AlertIcon

  /** `getStatusIcon`: none for any state other than the three. */
  function IconOf(processState: string): (r: Option<StatusIcon>)
    ensures r.Some? <==> ToLower(processState) in {"completed", "processing", "error"}
    ensures ToLower(processState) == "completed" ==> r == Some(CheckIcon)
    ensures ToLower(processState) == "processing" ==> r == Some(ClockIcon)
    ensures ToLower(processState) == "error" ==> r == Some(AlertIcon)
  {
    var s := ToLower(processState);
    if s == "completed" then Some(CheckIcon)
    else if s == "processing" then Some(ClockIcon)
    else if s == "error" then Some(AlertIcon)
    else None
  }

  lemma UploadingHasNoIcon()
    ensures IconOf("UPLOADING").None?
  {
    assert ToLower("UPLOADING") == "uploading";
  }

  /** The badge colour classes, defined for the four declared states only. */
  function BadgeVariant(processState: string): (r: Option<string>)
    ensures r.Some? <==> processState in {"COMPLETED", "PROCESSING", "ERROR", "UPLOADING"}
  {
    if processState == "COMPLETED" then Some("bg-green-100 text-green-700 border-green-200")
    else if processState == "PROCESSING" then Some("bg-yellow-100 text-yellow-700 border-yellow-200")
    else if processState == "ERROR" then Some("bg-red-100 text-red-700 border-red-200")
    else if processState == "UPLOADING" then Some("bg-yellow-100 text-yellow-700 border-yellow-200")
    else None
  }

  /** The badge text: the first character as is, the rest lowercased. */
  function BadgeLabel(processState: string): (r: string)
    ensures |r| == |processState|
    ensures |r| > 0 ==> r[0] == processState[0]
    ensures forall i :: 1 <= i < |r| ==> r[i] == LowerChar(processState[i])
  {
    if processState == [] then [] else [processState[0]] + ToLower(processState[1..])
  }

  lemma CompletedBadge()
    ensures BadgeLabel("COMPLETED") == "Completed"
  {
    assert ToLower("OMPLETED") == "ompleted";
  }

  /** The filter-button caption. */
  function FilterLabel(status: string): (r: string)
    ensures status == "all" ==> r == "All"
    ensures status != "all" ==> |r| == |status|
    ensures status != "all" && |status| > 0 ==> r[0] == UpperChar(status[0]) && r[1..] == status[1..]
  {
    if status == "all" then "All"
    else if status == [] then []
    else [UpperChar(status[0])] + status[1..]
  }

  /** One row of the list: what a click selects, and whether it is highlighted. */
  datatype Row = Row(selectId: string, highlighted: bool, icon: Option<StatusIcon>, badge: string)

  datatype ListBody = NoDocumentsFound | Rows(rows: seq<Row>)

  /** Highlighting compares the selection with the optional `id`: a document
      without one is never highlighted. */
  predicate IsHighlighted(selected: Option<string>, doc: Document) {
    selected.Some? && doc.id == selected
  }

  function RowOf(doc: Document, selected: Option<string>): (r: Row)
    ensures r.selectId == doc.docId
    ensures r.highlighted <==> selected.Some? && doc.id == selected
  {
    Row(doc.docId, IsHighlighted(selected, doc), IconOf(doc.processState), BadgeLabel(doc.processState))
  }

  function ListOf(docs: seq<Document>, selected: Option<string>): (r: ListBody)
    ensures r == NoDocumentsFound <==> docs == []
    ensures r.Rows? ==> |r.rows| == |docs| && forall i :: 0 <= i < |docs| ==> r.rows[i] == RowOf(docs[i], selected)
  {
    if docs == [] then NoDocumentsFound
    else Rows(seq(|docs|, i requires 0 <= i < |docs| => RowOf(docs[i], selected)))
  }

  /** Clicking a row selects its `doc_id`; the row is then highlighted only if
      its `id` is that same string. */
  lemma ClickHighlightsOnlyMatchingId(doc: Document)
    ensures RowOf(doc, Some(RowOf(doc, None).selectId)).highlighted <==> doc.id == Some(doc.docId)
  {
  }
}
