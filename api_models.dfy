/** The records exchanged with the backend and passed between components.
    Field names follow the wire format in camel case (`case_id` is `caseId`). */
module ApiModels {
  import opened Wrappers

  /** A case. `status` is kept as a string: the creation form can submit a
      value outside the declared four (see CreateCaseModal). */
  datatype Case = Case(
    caseId: int,
    title: string,
    description: Option<string>,
    status: string,
    priority: string,
    createdAt: string,
    updatedAt: string,
    documentCount: int,
    summary: Option<string>)

  /** A document's size: a byte count for a file being uploaded, or the text
      a formatter produced for a document loaded from the backend. */
  datatype Size = Bytes(count: int) | Formatted(text: string)

  /** A case document as the components hold it. `processState` is one of
      "PROCESSING", "COMPLETED", "ERROR", "UPLOADING" in practice. */
  datatype Document = Document(
    id: Option<string>,
    docId: string,
    filename: string,
    mimeType: string,
    size: Size,
    uploadedAt: string,
    processState: string,
    uploadedBy: string)

  datatype MessageType = UserMessage | AiMessage {
    /** The `type` string of a chat message. */
    function Name(): string {
      match this
      case UserMessage => "user"
      case AiMessage => "ai"
    }
  }

  datatype Message = Message(
    id: string,
    kind: MessageType,
    content: string,
    timestamp: string,
    sources: Option<seq<string>>)

  /** A generated summary of one document. */
  datatype DocumentSummary = DocumentSummary(
    documentId: string,
    summary: string,
    keyPoints: seq<string>,
    confidence: int,
    generatedAt: string,
    wordCount: nat)

  /** A generated summary of a whole case. */
  datatype OverallSummary = OverallSummary(
    overallSummary: string,
    generatedAt: string,
    documentsAnalyzed: int)

  /** A browser `File` as the upload code reads it. */
  datatype File = File(name: string, mimeType: string, size: int)
}

/** User-visible notifications ("toasts"); only their kind and text are modelled. */
module Notify {
  import opened Wrappers

  datatype Kind = SuccessKind | ErrorKind

  datatype Toast = Toast(kind: Kind, text: string, description: Option<string>)

  function SuccessToast(text: string): Toast {
    Toast(SuccessKind, text, None)
  }

  function ErrorToast(text: string): Toast {
    Toast(ErrorKind, text, None)
  }
}
