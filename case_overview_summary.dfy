/** The overall-summary card of a case: whether a summary can be generated,
    the generate action, and the Markdown export. The API result and the
    clock are inputs; the summary itself is held by the parent, handed back
    through a callback (modelled as the method's result) and passed in again
    as a property. The case page mounts the card without either, so there a
    generated summary is never stored and the export does nothing. */
module CaseOverviewSummary {
  import opened Wrappers
  import opened Text
  import opened Seqs
  import opened ApiModels
  import opened Notify
  import opened DocSummary

  /** Generation is offered when some document is completed. */
  predicate CanGenerate(docs: seq<Document>) {
    |Completed(docs)| > 0
  }

  lemma CanGenerateIff(docs: seq<Document>)
    ensures CanGenerate(docs) <==> exists i :: 0 <= i < |docs| && State(docs[i]) == "completed"
  {
    CountZeroIff(docs, HasState("completed"));
  }

  const GenerateFailedText := "Failed to generate Overall summary. Please try again."

  class OverviewPanel {
    var error: Option<string>

    constructor ()
      ensures error.None?
    {
      error := None;
    }

    /** `handleGenerateSummary`. `result` is the API's answer (`None` on
        failure), `now` the generation time, and `setterWired` whether the
        parent passed `setOverallSummary`: calling a missing setter throws,
        and the handler's catch reports the failure. Returns the summary
        handed to the parent, if any. */
    method HandleGenerateSummary(docs: seq<Document>, result: Option<string>, now: string, setterWired: bool)
      returns (produced: Option<OverallSummary>, toasts: seq<Toast>)
      modifies this
      ensures produced.Some? <==> result.Some? && result.value != "" && setterWired
      ensures produced.Some? ==>
        && produced.value == OverallSummary(result.value, now, |Completed(docs)|)
        && error.None? && toasts == [SuccessToast("Overall summary generated successfully!")]
      ensures produced.None? ==> error == Some(GenerateFailedText)
      ensures result.None? || result.value == "" ==> toasts == [ErrorToast("Failed to generate summary.")]
      ensures result.Some? && result.value != "" && !setterWired ==>
        toasts == [ErrorToast("Failed to generate Overall summary")]
    {
      error := None;
      if result.Some? && result.value != "" {
        if setterWired {
          produced := Some(OverallSummary(result.value, now, |Completed(docs)|));
          toasts := [SuccessToast("Overall summary generated successfully!")];
        } else {
          error := Some(GenerateFailedText);
          produced := None;
          toasts := [ErrorToast("Failed to generate Overall summary")];
        }
      } else {
        error := Some(GenerateFailedText);
        produced := None;
        toasts := [ErrorToast("Failed to generate summary.")];
      }
    }
  }

  /** A downloaded file. */
  datatype Download = Download(filename: string, content: string)

  function ExportHeader(s: OverallSummary, format: string -> string): string {
    "# Case Overall Summary\nGenerated: " + format(s.generatedAt)
    + "\nDocuments Analyzed: " + IntToString(s.documentsAnalyzed) + "\n\n"
  }

  /** What an export produces: the downloaded file, if any, and the toasts. */
  datatype Export = Export(download: Option<Download>, toasts: seq<Toast>)

  /** `handleExportSummary`: nothing at all without a summary; otherwise the
      Markdown file named after the case, and a success toast. `format`
      renders the timestamp. */
  function ExportSummary(overall: Option<OverallSummary>, caseId: int, format: string -> string): (r: Export)
    ensures r.download.Some? <==> overall.Some?
    ensures overall.None? ==> r.toasts == []
    ensures overall.Some? ==> r.toasts == [SuccessToast("Summary exported successfully!")]
    ensures r.download.Some? ==> r.download.value.filename == "case-" + IntToString(caseId) + "-combined-summary.md"
    ensures r.download.Some? ==>
      r.download.value.content == ExportHeader(overall.value, format) + overall.value.overallSummary + "\n"
  {
    match overall
    case None => Export(None, [])
    case Some(s) =>
      Export(Some(Download("case-" + IntToString(caseId) + "-combined-summary.md",
                           ExportHeader(s, format) + s.overallSummary + "\n")),
             [SuccessToast("Summary exported successfully!")])
  }

  /** The export starts with the heading and holds the summary text verbatim
      on its own after a blank line. */
  lemma ExportHoldsSummary(s: OverallSummary, caseId: int, format: string -> string)
    ensures var c := ExportSummary(Some(s), caseId, format).download.value.content;
      && "# Case Overall Summary\n" <= c
      && OccursAt(c, "\n\n" + s.overallSummary + "\n", |ExportHeader(s, format)| - 2)
      && c[|c| - 1] == '\n'
  {
    var h := ExportHeader(s, format);
    var c := h + s.overallSummary + "\n";
    assert h[|h| - 2..] == "\n\n";
    assert c[|h| - 2..|h| - 2 + |"\n\n" + s.overallSummary + "\n"|] == "\n\n" + s.overallSummary + "\n";
  }
}
