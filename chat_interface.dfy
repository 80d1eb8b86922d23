/** The case chat: the conversation list, the composer, the reply request,
    the session id, and the collapsing of long sources. Message ids and
    timestamps come from the clock and are inputs, and so is the reply of the
    chat endpoint (`None` when the request failed). */
module ChatInterface {
  import opened Wrappers
  import opened Text
  import opened Seqs
  import opened ApiModels
  import opened AuthStore

  /** The body posted to the chat endpoint. */
  datatype ChatRequest = ChatRequest(
    userMessage: string,
    userId: string,
    caseId: string,
    sessionId: string,
    documentIds: seq<string>)

  /** The fields of the chat reply that are read. */
  datatype ChatReply = ChatReply(aiMessage: string, citations: seq<string>)

  /** The greeting that opens every conversation. */
  function Greeting(title: string, timestamp: string): Message {
    Message("1", AiMessage,
            "Hello! I'm your AI case analyst for \"" + title + "\". I've analyzed the uploaded documents and I'm ready to answer questions about this case. What would you like to know?",
            timestamp, None)
  }

  /** `iso.replace(/[-:]/g, "")`. */
  function StripSeparators(iso: string): (r: string)
    ensures '-' !in r && ':' !in r
  {
    var r := Filter(iso, (c: char) => c != '-' && c != ':');
    assert forall i :: 0 <= i < |r| ==> r[i] != '-' && r[i] != ':';
    r
  }

  /** The session id: the case id, "_", and the timestamp without "-" and
      ":" cut before its first ".". */
  function SessionId(caseId: int, iso: string): (r: string)
    ensures r == IntToString(caseId) + "_" + Split(StripSeparators(iso), '.')[0]
    ensures forall i :: |IntToString(caseId)| < i < |r| ==> r[i] != '-' && r[i] != ':' && r[i] != '.'
  {
    var stamp := Split(StripSeparators(iso), '.')[0];
    var head := IntToString(caseId) + "_";
    assert forall i :: 0 <= i < |stamp| ==> stamp[i] != '-' && stamp[i] != ':' && stamp[i] != '.' by {
      SplitPartsAreSubstrings(StripSeparators(iso), '.');
    }
    var r := head + stamp;
    assert forall i :: |head| <= i < |r| ==> r[i] == stamp[i - |head|];
    r
  }

  /** Every piece of a split consists of characters of the input. */
  lemma {:induction false} SplitPartsAreSubstrings(s: string, d: char)
    ensures forall c :: c in Split(s, d)[0] ==> c in s
    decreases |s|
  {
    if s != [] {
      SplitPartsAreSubstrings(s[1..], d);
    }
  }

  /** For a timestamp "date" "." "fraction" whose date part has no ".", the
      session stamp is the date part without its separators. */
  lemma SessionIdOfIso(caseId: int, date: string, fraction: string)
    requires '.' !in date
    ensures SessionId(caseId, date + "." + fraction) == IntToString(caseId) + "_" + StripSeparators(date)
  {
    var keep := (c: char) => c != '-' && c != ':';
    FilterAppend(date + ".", fraction, keep);
    FilterAppend(date, ".", keep);
    var d := StripSeparators(date);
    assert StripSeparators(date + "." + fraction) == d + "." + StripSeparators(fraction);
    assert '.' !in d by {
      forall c | c in d ensures c != '.' {
        FilterMembership(date, keep, c);
      }
    }
    SplitAfterHead(d, '.', StripSeparators(fraction));
  }

  /** The collapsed form of a source: its first 100 characters, followed by
      "..." when it is longer. */
  function SourcePreview(source: string, expanded: bool): (r: string)
    ensures expanded ==> r == source
    ensures !expanded && |source| <= 100 ==> r == source
    ensures !expanded && |source| > 100 ==> r == source[..100] + "..."
  {
    if expanded then source
    else Slice(source, 0, 100) + (if |source| > 100 then "..." else "")
  }

  /** A collapsed preview is at most 103 characters; for a source with the
      toggle it is exactly the first 100 characters and the ellipsis. */
  lemma SourcePreviewBounds(source: string)
    ensures |SourcePreview(source, false)| <= 103
    ensures HasToggle(source) ==>
      |SourcePreview(source, false)| == 103 && SourcePreview(source, false)[..100] == source[..100]
    ensures !HasToggle(source) ==> SourcePreview(source, false) == source
  {
  }

  /** The "Show more"/"Show less" button is offered iff the source is longer
      than 100 characters. */
  predicate HasToggle(source: string) {
    |source| > 100
  }

  /** `user?.displayName || 'anonymous'`. */
  function ChatUserId(user: Option<User>): (r: string)
    ensures r != ""
    ensures user.Some? && user.value.displayName.Some? && user.value.displayName.value != "" ==>
      r == user.value.displayName.value
    ensures r != "anonymous" ==> user.Some? && user.value.displayName == Some(r)
  {
    if user.None? then "anonymous" else OrElse(user.value.displayName, "anonymous")
  }

  /** `documents.map(d => d.id || d.doc_id)`. */
  function DocumentIds(docs: seq<Document>): (r: seq<string>)
    ensures |r| == |docs|
    ensures forall i :: 0 <= i < |docs| ==> r[i] == OrElse(docs[i].id, docs[i].docId)
  {
    seq(|docs|, i requires 0 <= i < |docs| => OrElse(docs[i].id, docs[i].docId))
  }

  /** The suggested questions; the first four are offered. */
  const SuggestedQuestions := [
    "What are the key strengths of this case?",
    "Are there any potential weaknesses I should be aware of?",
    "What additional documentation might be helpful?",
    "How strong is the evidence for our position?",
    "What are the relevant policy provisions?",
    "What precedents might apply to this case?"]

  class ChatSession {
    var messages: seq<Message>
    var inputValue: string
    var isTyping: bool
    var expandedSources: map<int, bool>
    const sessionId: string
    const caseId: int

    /** `greetingTime` and `sessionTime` are the two clock readings taken
        when the chat opens. */
    constructor (caseData: Case, greetingTime: string, sessionTime: string)
      ensures messages == [Greeting(caseData.title, greetingTime)]
      ensures inputValue == "" && !isTyping && expandedSources == map[]
      ensures sessionId == SessionId(caseData.caseId, sessionTime) && caseId == caseData.caseId
      ensures Suggestions() == SuggestedQuestions[..4] && !ExportVisible()
    {
      messages := [Greeting(caseData.title, greetingTime)];
      inputValue := "";
      isTyping := false;
      expandedSources := map[];
      sessionId := SessionId(caseData.caseId, sessionTime);
      caseId := caseData.caseId;
    }

    predicate Expanded(index: int)
      reads this
    {
      index in expandedSources && expandedSources[index]
    }

    /** The export button is hidden while there are at most two messages,
        so it never shows beside the suggestions. */
    function ExportVisible(): (r: bool)
      reads this
      ensures r ==> Suggestions() == []
    {
      |messages| > 2
    }

    /** Suggestions are offered only while the greeting is the only message. */
    function Suggestions(): (r: seq<string>)
      reads this
      ensures |messages| == 1 ==> r == SuggestedQuestions[..4]
      ensures |messages| != 1 ==> r == []
    {
      if |messages| == 1 then SuggestedQuestions[..4] else []
    }

    /** The preview of the source at `index` of any message: the flag is
        keyed by the index alone. */
    function Preview(source: string, index: int): string
      reads this
    {
      SourcePreview(source, Expanded(index))
    }

    /** The first half of `handleSendMessage`: blank input is ignored;
        otherwise the trimmed text is appended as a user message, the input
        cleared, the typing indicator raised, and the request built. */
    method BeginSend(user: Option<User>, docs: seq<Document>, id: string, now: string)
      returns (request: Option<ChatRequest>)
      modifies this
      ensures IsBlank(old(inputValue)) ==>
        request.None? && messages == old(messages) && inputValue == old(inputValue) && isTyping == old(isTyping)
      ensures !IsBlank(old(inputValue)) ==>
        && messages == old(messages) + [Message(id, UserMessage, Trim(old(inputValue)), now, None)]
        && inputValue == "" && isTyping
        && request == Some(ChatRequest(Trim(old(inputValue)), ChatUserId(user), IntToString(caseId), sessionId,
                                       DocumentIds(docs)))
      ensures expandedSources == old(expandedSources)
    {
      TrimEmptyIffBlank(inputValue);
      if Trim(inputValue) == "" {
        return None;
      }
      var content := Trim(inputValue);
      messages := messages + [Message(id, UserMessage, content, now, None)];
      inputValue := "";
      isTyping := true;
      request := Some(ChatRequest(content, ChatUserId(user), IntToString(caseId), sessionId, DocumentIds(docs)));
    }

    /** The second half: the reply, if any, is appended as an AI message with
        its citations as sources; the typing indicator drops either way. */
    method CompleteSend(reply: Option<ChatReply>, id: string, now: string)
      modifies this
      ensures reply.Some? ==>
        messages == old(messages) + [Message(id, AiMessage, reply.value.aiMessage, now, Some(reply.value.citations))]
      ensures reply.None? ==> messages == old(messages)
      ensures !isTyping
      ensures inputValue == old(inputValue) && expandedSources == old(expandedSources)
    {
      if reply.Some? {
        messages := messages + [Message(id, AiMessage, reply.value.aiMessage, now, Some(reply.value.citations))];
      }
      isTyping := false;
    }

    /** `handleSendMessage`: `userId` and `aiId` are the two message ids. */
    method HandleSendMessage(user: Option<User>, docs: seq<Document>, userId: string, sentAt: string,
                             reply: Option<ChatReply>, aiId: string, repliedAt: string)
      returns (request: Option<ChatRequest>)
      modifies this
      ensures IsBlank(old(inputValue)) ==>
        request.None? && messages == old(messages) && inputValue == old(inputValue) && isTyping == old(isTyping)
      ensures !IsBlank(old(inputValue)) ==>
        && inputValue == "" && !isTyping
        && request == Some(ChatRequest(Trim(old(inputValue)), ChatUserId(user), IntToString(caseId), sessionId,
                                       DocumentIds(docs)))
        && messages == old(messages) + [Message(userId, UserMessage, Trim(old(inputValue)), sentAt, None)]
                       + (if reply.Some?
                          then [Message(aiId, AiMessage, reply.value.aiMessage, repliedAt, Some(reply.value.citations))]
                          else [])
      // the first answered question brings up the export button
      ensures !IsBlank(old(inputValue)) && reply.Some? && |old(messages)| >= 1 ==> ExportVisible()
      ensures expandedSources == old(expandedSources)
    {
      request := BeginSend(user, docs, userId, sentAt);
      if request.Some? {
        CompleteSend(reply, aiId, repliedAt);
      }
    }

    /** `toggleExpand(index)`: flips one index and no other. */
    method ToggleExpand(index: int)
      modifies this
      ensures expandedSources == old(expandedSources)[index := !old(Expanded(index))]
      ensures Expanded(index) == !old(Expanded(index))
      ensures forall j :: j != index ==> Expanded(j) == old(Expanded(j))
      ensures messages == old(messages) && inputValue == old(inputValue) && isTyping == old(isTyping)
    {
      expandedSources := expandedSources[index := !Expanded(index)];
    }
  }

  /** The print action appears on AI messages other than the greeting. */
  predicate HasPrintAction(m: Message) {
    m.id != "1" && m.kind == AiMessage
  }

  /** The greeting never offers the print action; every reply does, since
      replies get clock-based ids. */
  lemma PrintActionOnReplies(c: Case, t: string, id: string, reply: ChatReply, now: string)
    requires id != "1"
    ensures !HasPrintAction(Greeting(c.title, t))
    ensures HasPrintAction(Message(id, AiMessage, reply.aiMessage, now, Some(reply.citations)))
  {
  }

  /** Toggling index i changes the preview of source i of every message. */
  lemma ToggleAffectsEveryMessage(expanded: map<int, bool>, index: int, sources: seq<seq<string>>)
    requires index >= 0
    requires forall k :: 0 <= k < |sources| ==> index < |sources[k]| && |sources[k][index]| > 103
    ensures var before := index in expanded && expanded[index];
      forall k :: 0 <= k < |sources| ==>
        SourcePreview(sources[k][index], !before) != SourcePreview(sources[k][index], before)
  {
    var before := index in expanded && expanded[index];
    forall k | 0 <= k < |sources|
      ensures SourcePreview(sources[k][index], !before) != SourcePreview(sources[k][index], before)
    {
      SourcePreviewBounds(sources[k][index]);
    }
  }
}
