# LegalAI Dashboard client — a Dafny model

This project models the client logic of the LegalAI Dashboard, a React
single-page application in which a lawyer signs in through Microsoft
identity, browses cases, uploads PDF documents to a case, reads per-document
and per-case AI summaries, and chats with an AI analyst about the case.

What is modelled:

- **Session.**
  - The session store with its `login`/`logout`.
  - Rehydration of a session from a cached identity account.
  - The interactive login flow and the protected-route guard.
- **Requests.**
  - The `useApi` request hook: request construction, the headers it sends, and its error message and toast.
  - The upload store and the upload dialog: file screening, URL entries, and the per-file upload loop.
- **Summaries.**
  - The per-case summary store.
  - The document-summary panel: partitions, filtering, auto-selection, fetching and its loading/error maps.
  - Its content ladder, header and list rows.
  - The overall-summary card: generation and Markdown export.
- **Chat.** The chat session: greeting, session id, send, source previews and the print template.
- **Cases.**
  - The case page's document list: load, optimistic upload placeholders and delete.
  - The create-case form.
  - The shell's case list and views.
  - The dashboard's search/status filter, table paging, grid "load more" and the statistics tiles.

How the model is built:

- Each source file is one module.
- Components and stores whose handlers update state in place are classes with `modifies` clauses.
- Pure computations are functions with lemmas about them.
- An `await` that splits observable state is modelled as a `Begin…`/`Complete…` pair of methods.
- Everything outside the program is an input: the identity provider's answers, the token payload decoder, HTTP outcomes, clock readings, generated ids and locale formatters.
- Strings are character sequences with ASCII case mapping.
- JavaScript idioms are written out in the shared modules `Text` and `Seqs`: `trim`, `split` on a character and on `/\s+/`, `includes`, `||` on strings, `slice` clamping, `filter(...).length` and `reduce`.

Where the code differs from what its comments, labels or declared types suggest, the model follows the code:

- **Requests.**
  - The `Authorization` header is the literal `Bearer todoToken`; the stored token is never sent.
  - GET and DELETE requests carry the `user-id` header, because their payload defaults to an empty object.
- **Session.** `login` sets `isAuthenticated` whatever token it receives, and always stores the avatar `/lawyer.png`.
- **Upload.**
  - The size limit is 10·1024³ bytes, although the comment says 10 MB and the toast says 100 MB.
  - The upload dialog counts every resolved `fetch` as a success.
- **Create case.**
  - The "In Progress" option submits `IN PROGRESS`, which is not one of the declared statuses. The dashboard's status menu offers `IN_PROGRESS`, so such a case is listed only under "All Status".
  - The form awaits the parent's `onCaseCreated`; `CreateCaseModal.CaseForm.HandleSubmit` takes whether it resolved as the input `accepted`. The layout's handler never rejects, because `postData` reports a failure by returning `null`. So in the application `accepted` is always true: a failed creation still shows "Case created successfully!", resets the form and closes the modal; the case list in the layout stays unchanged.
- **Table.** Next is never disabled when the table has no rows.
- **Overall summary.** The case page mounts the overall-summary card without its `setOverallSummary` and `overallSummary` properties. There, a successful generation ends in the catch branch's error, and export does nothing.

## Model

| member | source | states |
|---|---|---|
| AuthStore.SessionStore.constructor | src/store/AuthStore.tsx:21-26 | the store starts signed out: not authenticated, no user, token, roles or expiry |
| AuthStore.SessionStore.Login | src/store/AuthStore.tsx:27-33 | all five fields are overwritten; the session is authenticated whatever token is given, and the stored avatar is always the default one |
| AuthStore.SessionStore.Logout | src/store/AuthStore.tsx:34-40 | all five fields return to the signed-out state |
| AuthStore.AvatarIgnored | src/store/AuthStore.tsx:27-33 | the caller's avatar has no effect on the resulting session |
| AuthStore.AuthenticatedWithoutToken | src/store/AuthStore.tsx:27-33 | a login without a token still yields an authenticated session |
| Identity.PayloadOfCompactToken | src/App.tsx:33-36 | for a three-segment token, the segment decoded for `exp` is the payload between the first two dots |
| Identity.NoSegmentWithoutDot | src/components/LoginScreen.tsx:32-33 | a token without a dot has no payload segment, so decoding fails |
| Identity.DecodeLogin | src/components/LoginScreen.tsx:31-44 | a login is produced iff the payload segment exists, decodes, and the response has an account; its display name, email, token, roles and expiry come from the response |
| Identity.LoginFrom | src/App.tsx:26-47 | a failed silent acquisition gives no login; an acquired one gives exactly the decoded login |
| App.Root.constructor | src/App.tsx:11 | the root starts not rehydrated |
| App.Root.View | src/App.tsx:58-60 | the routes are rendered iff rehydration has finished |
| App.Root.Rehydrate | src/App.tsx:13-56 | silent sign-in is attempted iff no interaction is in progress, no truthy token is stored and an account exists, using the first account; the store changes only on a successful decode; rehydration always ends |
| App.RoutesAfterRehydration | src/App.tsx:58-60 | once rehydrated, the route table is shown |
| LoginScreen.HandleMicrosoftLogin | src/components/LoginScreen.tsx:19-50 | exactly one of "/layout" and "/login" is navigated to; "/layout" iff the popup and the silent acquisition and decode all succeed, with the store then holding that session; otherwise the store is untouched |
| ProtectedRoute.Guard | src/routes/ProtectedRoute.tsx:4-6 | children are rendered iff the session is authenticated, otherwise a redirect to "/login" |
| ProtectedRoute.GuardReadsOnlyTheFlag | src/routes/ProtectedRoute.tsx:6 | two sessions with the same flag get the same outcome, whatever their token |
| ProtectedRoute.TokenlessLoginGrantsAccess | src/routes/ProtectedRoute.tsx:6 | a login without a token passes the guard |
| ProtectedRoute.SignedOutRedirects | src/routes/ProtectedRoute.tsx:6 | the signed-out session is redirected |
| UseApi.UserIdHeader | src/hooks/UseApi.tsx:38 | the `user-id` header is the display name, else the email, else empty |
| UseApi.ResolvePath | src/hooks/UseApi.tsx:60-70 | an explicit non-empty path overrides the hook's path |
| UseApi.BuildRequest | src/hooks/UseApi.tsx:31-39 | URL is base + "/" + path; the body is sent iff not GET and the query iff GET; JSON content type and user id are sent iff the payload is not form data; authorization is always the constant bearer |
| UseApi.ErrorMessage | src/hooks/UseApi.tsx:45-47 | the message is the server detail, else the transport message, else "Unknown API error"; never empty |
| UseApi.GetAndDeleteCarryUserId | src/hooks/UseApi.tsx:24-70 | GET and DELETE requests carry the user id header |
| UseApi.TokenNeverSent | src/hooks/UseApi.tsx:36-39 | two sessions with the same user but any tokens build the same request |
| UseApi.CallSite.constructor | src/hooks/UseApi.tsx:10-12 | no data, not loading, no error |
| UseApi.CallSite.Begin | src/hooks/UseApi.tsx:27-28 | loading is set and the error cleared, data kept |
| UseApi.CallSite.Complete | src/hooks/UseApi.tsx:42-56 | on delivery the data is the body and is returned; on rejection the data is kept, the error is the error message, null is returned with one API-error toast; loading ends |
| UseApi.CallSite.Request | src/hooks/UseApi.tsx:21-57 | the request sent is the built request, and the call settles as above |
| UseApi.CallSite.FetchData | src/hooks/UseApi.tsx:60-62 | a GET with an empty payload on the resolved path |
| UseApi.CallSite.PostData | src/hooks/UseApi.tsx:63-65 | a POST of the payload on the resolved path |
| UseApi.CallSite.PutData | src/hooks/UseApi.tsx:66-67 | a PUT of the payload on the resolved path |
| UseApi.CallSite.DeleteData | src/hooks/UseApi.tsx:68-70 | a DELETE with an empty payload on the resolved path |
| OverallSummaryStore.SummaryStore.constructor | src/store/OverallSummaryStore.tsx:15 | the store starts empty |
| OverallSummaryStore.SummaryStore.GetSummary | src/store/OverallSummaryStore.tsx:22 | a summary is returned iff one is stored for the case |
| OverallSummaryStore.SummaryStore.SetSummary | src/store/OverallSummaryStore.tsx:17-20 | the case's summary is replaced and every other case's is unchanged |
| OverallSummaryStore.SummaryStore.ClearSummaries | src/store/OverallSummaryStore.tsx:24 | no case has a summary afterwards |
| OverallSummaryStore.SetSummaryIdempotent | src/store/OverallSummaryStore.tsx:17-20 | setting twice equals setting once; the last write wins |
| UploadStore.UploadOne | src/store/UploadStore.ts:38-58 | a file is fulfilled iff its response is ok; a failed response's error is its body text, or "HTTP <status>" when that is empty; a network failure keeps its message |
| UploadStore.Results | src/store/UploadStore.ts:38-60 | one result per file, in file order |
| UploadStore.SummaryToasts | src/store/UploadStore.ts:62-69 | a success summary iff something succeeded, an error summary iff something failed |
| UploadStore.SuccessCountIsOkCount | src/store/UploadStore.ts:62-63 | the success count is the number of ok responses |
| UploadStore.FailCountIsRejectedCount | src/store/UploadStore.ts:62-64 | the failure count is the number of rejected files, and the two counts add up to the number of files |
| UploadStore.AllOrNothing | src/store/UploadStore.ts:62-69 | no success iff no response is ok, no failure iff every response is ok |
| UploadStore.ThreeFilesOneFailing | src/store/UploadStore.ts:38-69 | three files with one empty-bodied 500 give two successes, "HTTP 500", and both summary toasts |
| UploadStore.UploadTracker.constructor | src/store/UploadStore.ts:18 | no case has an upload status |
| UploadStore.UploadTracker.Status | src/store/UploadStore.ts:81-82 | an unknown case reads as idle |
| UploadStore.UploadTracker.Begin | src/store/UploadStore.ts:26-31 | only this case's status becomes uploading with its file names |
| UploadStore.UploadTracker.Finish | src/store/UploadStore.ts:70-78 | only this case's status returns to idle |
| UploadStore.UploadTracker.StartUpload | src/store/UploadStore.ts:20-79 | an empty selection is refused with a toast and no request; otherwise one request per file to the case's documents URL with the constant bearer and the user id, one toast per file and the summary toasts, and the case ends idle |
| DocumentUpload.Screen | src/components/DocumentUpload.tsx:60-81 | each of the four checks is characterised exactly, in order: not a PDF, over the size limit, already selected (same name and size), already in the case (same name) |
| DocumentUpload.Tag | src/components/DocumentUpload.tsx:83-85 | each accepted file is paired with its own fresh id, in order |
| DocumentUpload.Rejections | src/components/DocumentUpload.tsx:61-81 | one error toast per rejected file |
| DocumentUpload.UrlName | src/components/DocumentUpload.tsx:111 | the entry's name is never empty |
| DocumentUpload.UrlNameIsLastSegment | src/components/DocumentUpload.tsx:111 | the name is the path's last segment, or "Document" when that is empty |
| DocumentUpload.DuplicatesInOneDropAccepted | src/components/DocumentUpload.tsx:70 | the same file twice in one drop passes the duplicate check both times, because it compares against the earlier selection |
| DocumentUpload.SizeLimit | src/components/DocumentUpload.tsx:66-68 | the limit is 10737418240 bytes inclusive; a 100 MB + 1 file is not too large |
| DocumentUpload.UploadDialog.constructor | src/components/DocumentUpload.tsx:27-31 | empty selection and URLs, file mode, not uploading |
| DocumentUpload.UploadDialog.HandleFiles | src/components/DocumentUpload.tsx:60-88 | the accepted files are appended with their ids, and the rejected ones toasted |
| DocumentUpload.UploadDialog.RemoveFile | src/components/DocumentUpload.tsx:90-92 | exactly the files with that id leave the selection |
| DocumentUpload.UploadDialog.AddUrl | src/components/DocumentUpload.tsx:94-116 | a blank or unparsable input is refused with a toast; otherwise the trimmed URL is appended with its name and the input cleared |
| DocumentUpload.UploadDialog.RemoveUrl | src/components/DocumentUpload.tsx:118-120 | exactly the entries with that id are removed |
| DocumentUpload.SendFiles | src/components/DocumentUpload.tsx:134-148 | one request per selected file, in order, to the case's documents endpoint with the placeholder bearer token and the user-id header; it stops right after the first failed fetch, and reports no failure iff every fetch produced a response |
| DocumentUpload.UploadDialog.HandleUpload | src/components/DocumentUpload.tsx:122-166 | an empty selection is refused; files are posted in order until the first failed fetch, which stops the loop with its message; success hands the selection to the parent, clears everything and toasts the count; the URL mode only toasts |
| DocSummary.Partition | src/components/doc_summary/DocumentSummary.tsx:45-47 | a document is in a partition iff it is in the list with that lowercased state, and the partition keeps the list's order, so the Ready, Processing and Error counts are exact |
| DocSummary.UploadingInNoPartition | src/components/doc_summary/DocumentSummary.tsx:45-47 | an uploading document is in no partition |
| DocSummary.FilteredDocuments | src/components/doc_summary/DocumentSummary.tsx:50-54 | every listed document matches the query and the status filter |
| DocSummary.FilteredDocumentsExact | src/components/doc_summary/DocumentSummary.tsx:50-54 | a document is listed iff it is in the list and matches; the order is kept |
| DocSummary.EmptyQueryListsAll | src/components/doc_summary/DocumentSummary.tsx:50-54 | the empty query with "all" lists everything |
| DocSummary.AutoSelect | src/components/doc_summary/DocumentSummary.tsx:56-60 | with nothing selected, the first completed document is selected; otherwise the selection stays |
| DocSummary.AutoSelectPicksFirstCompleted | src/components/doc_summary/DocumentSummary.tsx:56-60 | the document selected is the first completed one in list order |
| DocSummary.FindById | src/components/doc_summary/DocumentSummary.tsx:67 | the first document whose id matches; none when no document has it |
| DocSummary.WordCount | src/components/doc_summary/DocumentSummary.tsx:79 | zero for an absent or empty summary, else the number of pieces between white-space runs |
| DocSummary.WordCountOfWords | src/components/doc_summary/DocumentSummary.tsx:79 | words joined by single spaces count as their number |
| DocSummary.LeadingSpaceCountsAsWord | src/components/doc_summary/DocumentSummary.tsx:79 | a leading space adds one to the count |
| DocSummary.BuildSummary | src/components/doc_summary/DocumentSummary.tsx:73-80 | the summary text or the placeholder, confidence 95, no key points, the upload time, and the word count |
| DocSummary.FetchSummary | src/components/doc_summary/DocumentSummary.tsx:66-81 | "Document not found" without a matching document, "Failed to fetch summary" on a failed request, else the built summary from the document's summary path |
| DocSummary.SummaryPanel.constructor | src/components/doc_summary/DocumentSummary.tsx:35-40 | nothing selected, empty query, "all", empty maps |
| DocSummary.SummaryPanel.ApplyAutoSelect | src/components/doc_summary/DocumentSummary.tsx:56-60 | the selection becomes the auto-selection; nothing else changes |
| DocSummary.SummaryPanel.BeginLoad | src/components/doc_summary/DocumentSummary.tsx:84-87 | a document already summarised or loading is not reloaded; otherwise it is marked loading with its error cleared |
| DocSummary.SummaryPanel.FinishLoad | src/components/doc_summary/DocumentSummary.tsx:88-100 | loading ends; a success stores the summary, a failure stores its message |
| DocSummary.SummaryPanel.LoadDocumentSummary | src/components/doc_summary/DocumentSummary.tsx:83-101 | the panel ends with the fetch's summary or its specific error, unless it was already settled |
| DocSummary.SummaryPanel.HandleDocumentSelect | src/components/doc_summary/DocumentSummary.tsx:103-107 | the id is selected; for any document but a completed one nothing else changes; for a completed one, a settled id leaves the maps alone, and otherwise loading ends and the fetch's summary (with an empty error) or its error text is stored; after such a fresh load of a non-empty id the panel shows no loading and exactly that summary or error |
| DocSummary.SummaryPanel.SelectedSummary | src/components/doc_summary/DocumentSummary.tsx:110 | present iff the selected id is non-empty and has a stored summary, and then it is that summary |
| DocSummary.SummaryPanel.SelectedIsLoading | src/components/doc_summary/DocumentSummary.tsx:111 | true iff the non-empty selected id is marked loading; a loading selection is settled, so selecting it again fetches nothing |
| DocSummary.SummaryPanel.SelectedError | src/components/doc_summary/DocumentSummary.tsx:112 | present iff the selected id is non-empty and has a stored error text, and then it is that text |
| DocSummary.LoadErrorsAreSpecific | src/components/doc_summary/DocumentSummary.tsx:68-97 | a failed load stores one of the two specific messages; the generic fallback is never used |
| SummaryContent.Content | src/components/doc_summary/SummaryContent.tsx:21-61 | the seven screens as an exact ladder: no document, processing, error state, loading, error message with retry, generate prompt, rendered summary |
| SummaryContent.EmptyErrorIsNoError | src/components/doc_summary/SummaryContent.tsx:39 | an empty error message shows nothing |
| SummaryContent.UploadingReachesLoading | src/components/doc_summary/SummaryContent.tsx:21-37 | an uploading document can show the loading screen |
| SummaryHeader.HeaderOf | src/components/doc_summary/SummaryHeader.tsx:20-48 | the header shows iff the document is completed; its actions show iff a summary exists, with refresh disabled while loading |
| DocumentList.IconOf | src/components/doc_summary/DocumentList.tsx:36-45 | an icon for the three states only, by lowercased state |
| DocumentList.UploadingHasNoIcon | src/components/doc_summary/DocumentList.tsx:36-45 | an uploading document has no icon |
| DocumentList.BadgeVariant | src/components/doc_summary/DocumentList.tsx:47-53 | a variant for the four exact upper-case states only |
| DocumentList.BadgeLabel | src/components/doc_summary/DocumentList.tsx:55 | the first character kept, the rest lower-cased |
| DocumentList.CompletedBadge | src/components/doc_summary/DocumentList.tsx:55 | "COMPLETED" reads "Completed" |
| DocumentList.FilterLabel | src/components/doc_summary/DocumentList.tsx:93 | "All" for "all", else the first letter capitalised |
| DocumentList.RowOf | src/components/doc_summary/DocumentList.tsx:107-115 | a click selects the `doc_id`, but highlighting compares the `id` |
| DocumentList.ListOf | src/components/doc_summary/DocumentList.tsx:100-115 | "no documents" iff the list is empty, else one row per document in order |
| DocumentList.ClickHighlightsOnlyMatchingId | src/components/doc_summary/DocumentList.tsx:110-112 | a clicked row is highlighted iff its `id` equals its `doc_id` |
| PrintRenderer.SourcesPart | src/components/PrintRenderer.tsx:23-32 | the sources section is present iff there are sources |
| PrintRenderer.Block | src/components/PrintRenderer.tsx:20-35 | each message block starts with its role's opening |
| PrintRenderer.Render | src/components/PrintRenderer.tsx:3-41 | the document starts with the fixed head |
| PrintRenderer.RenderEmpty | src/components/PrintRenderer.tsx:3-41 | no messages give the head followed by the tail |
| PrintRenderer.BlocksAppend | src/components/PrintRenderer.tsx:18-37 | the blocks of two lists concatenate |
| PrintRenderer.BlocksSingle | src/components/PrintRenderer.tsx:18-37 | one message renders as its block |
| PrintRenderer.ContentVerbatim | src/components/PrintRenderer.tsx:21-22 | a message's content appears unescaped right after its opening |
| PrintRenderer.SourceItemsSnoc | src/components/PrintRenderer.tsx:27-29 | appending a source appends one item numbered next |
| PrintRenderer.SourceNumbering | src/components/PrintRenderer.tsx:27-29 | the i-th source is numbered i+1 |
| PrintRenderer.SourceItemsSplit | src/components/PrintRenderer.tsx:27-29 | numbering continues across a split of the sources |
| ChatInterface.StripSeparators | src/components/ChatInterface.tsx:51 | no '-' or ':' remains |
| ChatInterface.SessionId | src/components/ChatInterface.tsx:50-53 | the case id, "_", and the stripped time up to the first dot |
| ChatInterface.SplitPartsAreSubstrings | src/components/ChatInterface.tsx:51 | the first piece's characters all come from the input |
| ChatInterface.SessionIdOfIso | src/components/ChatInterface.tsx:50-53 | for a timestamp with fractional seconds the id drops the fraction |
| ChatInterface.SourcePreview | src/components/ChatInterface.tsx:250-261 | expanded or short sources are shown whole; long ones are cut to 100 characters plus "..." |
| ChatInterface.SourcePreviewBounds | src/components/ChatInterface.tsx:250-261 | a collapsed preview is at most 103 characters, exactly 103 when a toggle is shown |
| ChatInterface.ChatUserId | src/components/ChatInterface.tsx:91 | a non-empty display name is sent as is; anything other than "anonymous" is the user's display name, so with no user or no display name it is "anonymous" |
| ChatInterface.DocumentIds | src/components/ChatInterface.tsx:94 | each document's `id`, or its `doc_id` when the id is empty |
| ChatInterface.ChatSession.constructor | src/components/ChatInterface.tsx:37-53 | one greeting message, empty input, no sources expanded, the session id fixed; the first four suggestions show and export is hidden |
| ChatInterface.ChatSession.Suggestions | src/components/ChatInterface.tsx:318 | four suggestions iff only the greeting is shown |
| ChatInterface.ChatSession.BeginSend | src/components/ChatInterface.tsx:69-95 | blank input does nothing; otherwise the trimmed message is appended, the input cleared, typing shown and the chat request formed |
| ChatInterface.ChatSession.CompleteSend | src/components/ChatInterface.tsx:97-111 | a reply is appended with its citations; typing ends either way |
| ChatInterface.ChatSession.HandleSendMessage | src/components/ChatInterface.tsx:69-112 | the whole send: user message, then the reply if any, request as above; the first answered question brings up the export button |
| ChatInterface.ChatSession.ExportVisible | src/components/ChatInterface.tsx:201 | the export button shows only with more than two messages, so never beside the suggestions |
| ChatInterface.ChatSession.ToggleExpand | src/components/ChatInterface.tsx:151-156 | only that index flips |
| ChatInterface.PrintActionOnReplies | src/components/ChatInterface.tsx:270 | the greeting has no print action, every reply has one |
| ChatInterface.ToggleAffectsEveryMessage | src/components/ChatInterface.tsx:250-261 | the expansion state is keyed by source index, so toggling changes that source in every message |
| CaseDetails.MimeLabel | src/components/CaseDetails.tsx:66 | "PDF" iff the MIME type contains "pdf", else "Unknown" |
| CaseDetails.FromBackend | src/components/CaseDetails.tsx:62-71 | the id is the `doc_id`, and name, state and uploader are copied |
| CaseDetails.DocumentsOf | src/components/CaseDetails.tsx:61-72 | one document per backend document in order, none when absent |
| CaseDetails.LoadedIdsAreDocIds | src/components/CaseDetails.tsx:63-64 | every loaded document's id is its `doc_id` |
| CaseDetails.TempDoc | src/components/CaseDetails.tsx:80-89 | the placeholder id is "temp-" + time + "-" + name, state "UPLOADING", by "Anonymous" |
| CaseDetails.TempDocs | src/components/CaseDetails.tsx:80-91 | one placeholder per file in order |
| CaseDetails.CaseDetailsPage.constructor | src/components/CaseDetails.tsx:49 | no documents |
| CaseDetails.CaseDetailsPage.LoadCase | src/components/CaseDetails.tsx:57-77 | a loaded case replaces the documents and reports the current case with the new count upward, which becomes the page's case |
| CaseDetails.CaseDetailsPage.HandleDocumentUpload | src/components/CaseDetails.tsx:79-114 | the placeholders are appended, then replaced by the reloaded case when it loads, whose count becomes the page's; the success toast always shows |
| CaseDetails.CaseDetailsPage.HandleDeleteDocument | src/components/CaseDetails.tsx:131-142 | on success every document with that `doc_id` is removed and the reported case, which becomes the page's case, has the current count minus one, so successive deletes count down |
| CaseDetails.DocumentPath | src/components/CaseDetails.tsx:132 | the delete path starts with the case's documents collection and ends with the document id |
| CaseDetails.DocumentPathInjective | src/components/CaseDetails.tsx:132 | two ids of one case share a delete path iff they are equal |
| CaseDetails.DeleteRemovesAllMatching | src/components/CaseDetails.tsx:135 | exactly the matching documents go, the rest keep their order |
| CaseOverviewSummary.CanGenerateIff | src/components/CaseOverviewSummary.tsx:23-26 | generation is offered iff some document's lowercased state is "completed" |
| CaseOverviewSummary.OverviewPanel.constructor | src/components/CaseOverviewSummary.tsx:20 | no error |
| CaseOverviewSummary.OverviewPanel.HandleGenerateSummary | src/components/CaseOverviewSummary.tsx:37-60 | a summary reaches the parent iff the answer is non-empty and a setter was passed, with the completed count; otherwise the error text is set, with the toast of the branch taken |
| CaseOverviewSummary.ExportSummary | src/components/CaseOverviewSummary.tsx:62-82 | no file and no toast without a summary; otherwise "case-<id>-combined-summary.md" with the heading, time, count and the summary, and the toast "Summary exported successfully!" |
| CaseOverviewSummary.ExportHoldsSummary | src/components/CaseOverviewSummary.tsx:64-69 | the export starts with the heading and holds the summary verbatim after a blank line, ending in a newline |
| CreateCaseModal.With | src/components/CreateCaseModal.tsx:71-73 | only the named field changes |
| CreateCaseModal.CompleteIffNotBlank | src/components/CreateCaseModal.tsx:37-40 | the form passes iff neither title nor description is all white space |
| CreateCaseModal.Creator | src/components/CreateCaseModal.tsx:50-51 | the display name, or "Demo User" |
| CreateCaseModal.CaseForm.constructor | src/components/CreateCaseModal.tsx:26-32 | empty title and description, "OPEN", "MEDIUM", not submitting |
| CreateCaseModal.CaseForm.HandleInputChange | src/components/CreateCaseModal.tsx:71-73 | only the named field changes |
| CreateCaseModal.CaseForm.HandleSubmit | src/components/CreateCaseModal.tsx:34-69 | an incomplete form is refused with a toast and nothing changes; otherwise the untrimmed values with the creator as `created_by` and `user_id` are submitted; on success the form resets and the modal closes; submitting ends either way |
| CreateCaseModal.PaddingSurvivesValidation | src/components/CreateCaseModal.tsx:37-49 | a field starting with white space differs from its trimmed form, which is what is checked |
| CreateCaseModal.ResetFormIsIncomplete | src/components/CreateCaseModal.tsx:56-61 | the reset form would be refused |
| CreateCaseModal.InProgressOptionUndeclared | src/components/CreateCaseModal.tsx:154-157 | "IN PROGRESS" is offered but not declared; the other options are |
| CreateCaseModal.InProgressSubmission | src/components/CreateCaseModal.tsx:151-155 | a new form filled in with "In Progress" chosen submits the undeclared "IN PROGRESS", and the title and description exactly as typed |
| Layout.ReplaceById | src/components/Layout.tsx:97-100 | same length and order; every case with the id is the update, the others are unchanged |
| Layout.ReplaceByIdIdempotent | src/components/Layout.tsx:97-100 | replacing twice equals replacing once |
| Layout.ReplaceUnknownIsIdentity | src/components/Layout.tsx:97-100 | an unknown id changes nothing |
| Layout.ReplaceKeepsIds | src/components/Layout.tsx:97-100 | the ids of the list are unchanged |
| Layout.Workspace.constructor | src/components/Layout.tsx:26-50 | dashboard view, no selection, modal closed, no cases |
| Layout.Workspace.LoadCases | src/components/Layout.tsx:53-63 | a fetch is made iff the view is the dashboard; the list is replaced only when the answer has items |
| Layout.Workspace.HandleOpenCase | src/components/Layout.tsx:65-68 | the case is selected and the details view shown |
| Layout.Workspace.HandleNewCase | src/components/Layout.tsx:70-72 | the modal opens |
| Layout.Workspace.HandleCaseCreated | src/components/Layout.tsx:74-80 | a created case is prepended and the modal closes; without one nothing changes |
| Layout.Workspace.HandleBackToDashboard | src/components/Layout.tsx:82-85 | the dashboard view with no selection |
| Layout.Workspace.HandleCaseUpdated | src/components/Layout.tsx:97-102 | the list is replaced by id and the update selected |
| Layout.HandleLogout | src/components/Layout.tsx:20-24 | storage is cleared, then the store signed out, then the popup opened |
| CaseDashboard.MatchesSearch | src/components/cases/CaseDashboard.tsx:26-28 | a case whose title or description holds the query verbatim matches |
| CaseDashboard.SearchIgnoresQueryCase | src/components/cases/CaseDashboard.tsx:26-28 | a query and its lower-cased form match the same cases |
| CaseDashboard.InProgressCasesEscapeFilter | src/components/cases/CaseFilters.tsx:39-43 | a case created as "IN PROGRESS" passes "all" and no other entry of the status menu, whose entry is "IN_PROGRESS" |
| CaseDashboard.FilteredCases | src/components/cases/CaseDashboard.tsx:25-31 | every listed case matches search and status, in the original order |
| CaseDashboard.FilteredCasesExact | src/components/cases/CaseDashboard.tsx:25-31 | a case is listed iff it is in the list and matches both |
| CaseDashboard.NoFilterListsAll | src/components/cases/CaseDashboard.tsx:25-31 | an empty query with "all" lists every case |
| CaseDashboard.Initial | src/components/cases/CaseDashboard.tsx:18-23 | 5 visible cards, page 1, 10 per page, empty query, "all", grid |
| CaseDashboard.InitiallyListsAll | src/components/cases/CaseDashboard.tsx:18-31 | a freshly mounted dashboard lists every case |
| CaseTable.TotalPages | src/components/cases/CaseTable.tsx:16 | the ceiling of the count over the page size |
| CaseTable.Page | src/components/cases/CaseTable.tsx:17 | page p is the p-th run of page-size cases, clipped; never more than a page |
| CaseTable.PagesUpToIsPrefix | src/components/cases/CaseTable.tsx:17 | the first k pages are the list's first k·size cases |
| CaseTable.PagesCoverAll | src/components/cases/CaseTable.tsx:16-17 | all pages together are the whole list, in order |
| CaseTable.Press | src/components/cases/CaseTable.tsx:46-58 | Previous is disabled iff on page 1, Next iff on the last page; an enabled button moves by one |
| CaseTable.PressStaysInRange | src/components/cases/CaseTable.tsx:46-58 | from a page in range, an enabled button stays in range |
| CaseTable.NextNeverDisabledWhenEmpty | src/components/cases/CaseTable.tsx:16-57 | with no cases there are no pages and Next is always enabled |
| CaseGrid.Grid | src/components/cases/CaseGrid.tsx:16-35 | while loading no cards; otherwise the first min(visible, n) cases in order, and "Load More" iff visible < n |
| CaseGrid.LoadMore | src/components/cases/CaseGrid.tsx:38 | the visible count grows by exactly six |
| CaseGrid.LoadMoreExtends | src/components/cases/CaseGrid.tsx:16-38 | a press keeps the shown cards and adds up to six |
| CaseGrid.AllShownHidesButton | src/components/cases/CaseGrid.tsx:16-35 | once all are shown the button is gone |
| CaseStats.ActiveCases | src/components/cases/CaseStats.tsx:9 | never more than the number of cases |
| CaseStats.ActiveCasesIsTally | src/components/cases/CaseStats.tsx:9 | the count equals the one-by-one tally of "OPEN" cases |
| CaseStats.AllActiveIff | src/components/cases/CaseStats.tsx:9 | all cases count iff every case is "OPEN" |
| CaseStats.StatsAppend | src/components/cases/CaseStats.tsx:9-16 | both tiles add over a split list and are zero for none |
| CaseStats.Documents | src/components/cases/CaseStats.tsx:16 | zero for no cases and a single case's own count; with `StatsAppend`, the sum of the counts |
| CaseStats.DocumentsNonNegative | src/components/cases/CaseStats.tsx:16 | the document total is never negative for non-negative counts |

## Left out

- The network, the identity provider (popup, silent acquisition, account cache, logout popup) and `fetch` are not modelled as calls: their outcomes are inputs to the methods that await them.
- The decoding of the token payload (`atob`, `JSON.parse`) is an input function; only the choice of the segment is modelled.
- Persistence of the stores to session storage is not modelled; `Layout.HandleLogout` records the clearing step only by its place in the order.
- Locale formatting (`toLocaleString`, `Intl.DateTimeFormat`) and the size formatter are input functions. `formatFileSize` is imported from `src/utils/datetime.ts`, which does not define it; the model takes it as a parameter.
- Clock readings and random ids are string inputs. `CaseDetails.TempDoc` takes one reading for both uses of `Date.now()` in the id.
- Concurrency: overlapping awaits, React's batching of state updates and effect scheduling are not modelled. Each handler runs to completion in the order written.
- Unicode: strings are sequences of code points, with ASCII case mapping. JavaScript's `toLowerCase` maps every Unicode letter, and `length` and `slice` count UTF-16 code units. So `CaseDashboard.MatchesSearch`, `DocSummary.State` and `DocSummary.Matches` do not match "É" against the query "é", though the application does. And `ChatInterface.SourcePreview` counts a character outside the Basic Multilingual Plane once, where the application counts it twice toward the 100-character limit.
- The two percentage tiles of the statistics (`Math.round` of a float division) are not modelled.
- Rendering, styling, animation, scrolling and focus handling are not modelled. Neither are the 1-second delays of the create-case form and the mocked URL upload.
- `CaseTable.TotalPages`: requires a positive page size; the dashboard always passes 10, and a zero size (which JavaScript turns into an infinite or NaN page count) is not modelled.
- `UseApi.CallSite.Complete`: requires the call to have begun (loading, no error), as it always has in `Request`.
- `UploadStore.UploadTracker.StartUpload`: requires one response per file, since each file's outcome is an input.
- `DocumentUpload.UploadDialog.HandleUpload`: requires one fetch outcome per selected file in file mode, for the same reason.
- `DocumentUpload.SendFiles`: requires one fetch outcome per file, for the same reason.
- `DocumentUpload.Rejections`: states the number and kind of the rejection toasts, not each toast's text; the text of each is `RejectionToast` of the check `Screen` reports.
- `ChatInterface.ChatSession.HandleSendMessage`: the catch branch that shows the error text is not modelled. The request hook reports failures by returning `null` and never throws there.
- The case page's mock AI summary (a timed placeholder text) and the chat's "no documents" notice are not modelled. Neither is part of the modelled handlers.
- `DocumentUpload.UrlName`: URL parsing is an input; the method receives the parsed path name, or none when the URL does not parse.
