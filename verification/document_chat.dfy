/** The chat panel's transcript: sending a prompt, regenerating an answer
    by truncating the transcript, clearing it, and the file name chosen
    when a retrieved image is downloaded. A request is split into the
    synchronous start of the handler and its completion once the server
    action settles; the action itself and the clock are parameters. */
module DocumentChat {
  import opened Wrappers
  import opened Strings
  import opened ClientTypes
  import Minio

  datatype Kind = User | Assistant

  /** A transcript entry; images, count and error flag are absent on user
      entries. The timestamp is left out. */
  datatype ChatMessage = ChatMessage(id: string, kind: Kind, content: string,
                                     images: Option<seq<string>>, totalRetrieved: Option<int>,
                                     isError: bool)

  datatype ChatState = ChatState(messages: seq<ChatMessage>, input: string, loading: bool,
                                 error: Option<string>, topK: int)

  /** The chat reply as the browser receives it. */
  datatype ConversationResponse = ConversationResponse(status: string, response: Option<string>,
                                                       retrievedImages: Option<seq<string>>,
                                                       totalRetrieved: Option<int>,
                                                       message: Option<string>)

  /** The component's initial state. */
  const Initial: ChatState := ChatState([], "", false, None, 5)

  const ChatRequestFailed: string := "Chat request failed"
  const NoAnswer: string := "I couldn't generate a response."
  const ErrorLead: string := "Sorry, I encountered an error: "
  const Unexpected: string := "An unexpected error occurred"

  /** How a handler's synchronous part ended: it returned early, it threw
      before changing anything, or it issued a request for the prompt. */
  datatype Start = Ignored | Crashed | Requested(prompt: string)

  // -----------------------------------------------------------------------
  // Send
  // -----------------------------------------------------------------------

  function UserMessage(content: string, now: nat): ChatMessage {
    ChatMessage("user_" + NatToString(now), User, content, None, None, false)
  }

  /** The start of `handleSendMessage`: ignored while a request is in
      flight or when the trimmed input is empty; otherwise the trimmed text
      is appended as a user entry, the input is cleared and the request
      is issued. */
  function BeginSend(s: ChatState, now: nat): (r: (ChatState, Start))
    ensures Trim(s.input) == "" || s.loading <==> r.1 == Ignored
    ensures r.1 == Ignored ==> r.0 == s
    ensures r.1 != Crashed
    ensures r.1.Requested? ==>
      && r.1.prompt == Trim(s.input) && r.1.prompt != ""
      && r.0 == s.(messages := s.messages + [UserMessage(Trim(s.input), now)], input := "",
                   loading := true, error := None)
  {
    var text := Trim(s.input);
    if text == "" || s.loading then (s, Ignored)
    else (s.(messages := s.messages + [UserMessage(text, now)], input := "", loading := true, error := None),
          Requested(text))
  }

  /** The assistant entry for a settled request, with the error text when
      it failed: a reply whose status is "error" fails with its message
      (or a fallback), a thrown error with its message (or a fallback). */
  function AssistantReply(reply: Call<ConversationResponse>, now: nat): (r: (ChatMessage, Option<string>))
    ensures r.0.kind == Assistant
    ensures r.1.Some? <==> reply.Threw? || reply.value.status == "error"
    ensures r.0.isError <==> r.1.Some?
    ensures r.1.Some? ==> r.0.content == ErrorLead + r.1.value && r.0.images.None?
    ensures reply.Returned? && reply.value.status == "error" ==>
      r.1 == Some(OrText(reply.value.message, ChatRequestFailed))
    ensures reply.Threw? ==> r.1 == Some(ThrownText(reply.error, Unexpected))
    ensures r.1.None? ==>
      && r.0.content == OrText(reply.value.response, NoAnswer) && r.0.content != ""
      && r.0.images == Some(reply.value.retrievedImages.GetOr([]))
      && r.0.totalRetrieved == Some(reply.value.totalRetrieved.GetOr(0))
  {
    var failure :=
      match reply
      case Threw(e) => Some(ThrownText(e, Unexpected))
      case Returned(resp) =>
        if resp.status == "error" then Some(OrText(resp.message, ChatRequestFailed)) else None;
    match failure
    case Some(m) =>
      (ChatMessage("assistant_error_" + NatToString(now), Assistant, ErrorLead + m, None, None, true), failure)
    case None =>
      var resp := reply.value;
      (ChatMessage("assistant_" + NatToString(now), Assistant, OrText(resp.response, NoAnswer),
                   Some(resp.retrievedImages.GetOr([])), Some(resp.totalRetrieved.GetOr(0)), false),
       None)
  }

  /** The completion shared by send and regenerate: the assistant entry is
      appended, the error is set on failure and the busy flag is cleared in
      `finally`. */
  function Finish(s: ChatState, reply: Call<ConversationResponse>, now: nat): (r: ChatState)
    ensures r.messages == s.messages + [AssistantReply(reply, now).0]
    ensures !r.loading
    ensures r.input == s.input && r.topK == s.topK
    ensures AssistantReply(reply, now).1.Some? ==> r.error == AssistantReply(reply, now).1
    ensures AssistantReply(reply, now).1.None? ==> r.error == s.error
  {
    var (entry, failure) := AssistantReply(reply, now);
    s.(messages := s.messages + [entry], loading := false,
       error := if failure.Some? then failure else s.error)
  }

  /** A send that is not ignored adds exactly two entries: the user's
      trimmed text and the assistant's answer to it; the panel is idle
      again afterwards, with an error exactly when the answer failed. */
  lemma SendAddsPromptAndAnswer(s: ChatState, now: nat, reply: Call<ConversationResponse>, later: nat)
    requires BeginSend(s, now).1.Requested?
    ensures var after := Finish(BeginSend(s, now).0, reply, later);
      && after.messages == s.messages + [UserMessage(Trim(s.input), now), AssistantReply(reply, later).0]
      && after.input == "" && !after.loading
      && after.error == AssistantReply(reply, later).1
  {
    var started := BeginSend(s, now).0;
    assert started.messages + [AssistantReply(reply, later).0]
      == s.messages + [UserMessage(Trim(s.input), now), AssistantReply(reply, later).0];
  }

  // -----------------------------------------------------------------------
  // Regenerate
  // -----------------------------------------------------------------------

  /** The start of `regenerateResponse(index)`: index 0 and an entry before
      `index` that is not the user's are ignored; an index past the
      transcript's end reads an undefined entry and throws; otherwise the
      transcript is cut to its first `index` entries and the preceding
      user prompt is asked again. No in-flight guard applies. */
  function BeginRegenerate(s: ChatState, index: nat): (r: (ChatState, Start))
    ensures r.1 == Ignored <==> index == 0 || (index <= |s.messages| && s.messages[index - 1].kind != User)
    ensures r.1 == Crashed <==> index > |s.messages|
    ensures !r.1.Requested? ==> r.0 == s
    ensures r.1.Requested? ==>
      && 0 < index <= |s.messages| && s.messages[index - 1].kind == User
      && r.1.prompt == s.messages[index - 1].content
      && r.0 == s.(messages := s.messages[..index], loading := true, error := None)
  {
    if index == 0 then (s, Ignored)
    else if index > |s.messages| then (s, Crashed)
    else if s.messages[index - 1].kind != User then (s, Ignored)
    else (s.(messages := s.messages[..index], loading := true, error := None),
          Requested(s.messages[index - 1].content))
  }

  /** Regenerating keeps the transcript up to and including the prompt
      and puts one new answer after it, whether or not a request was
      already in flight. */
  lemma RegenerateReplacesTail(s: ChatState, index: nat, reply: Call<ConversationResponse>, now: nat)
    requires BeginRegenerate(s, index).1.Requested?
    ensures var after := Finish(BeginRegenerate(s, index).0, reply, now);
      && after.messages == s.messages[..index] + [AssistantReply(reply, now).0]
      && |after.messages| == index + 1
      && after.messages[index - 1] == s.messages[index - 1]
      && !after.loading
  {
  }

  /** Regenerating the answer that directly follows a user prompt leaves
      the transcript as long as it was. */
  lemma RegenerateLastAnswerKeepsLength(s: ChatState, reply: Call<ConversationResponse>, now: nat)
    requires |s.messages| >= 2 && s.messages[|s.messages| - 2].kind == User
    ensures var index := |s.messages| - 1;
      && BeginRegenerate(s, index).1.Requested?
      && |Finish(BeginRegenerate(s, index).0, reply, now).messages| == |s.messages|
  {
  }

  // -----------------------------------------------------------------------
  // Clear and download
  // -----------------------------------------------------------------------

  /** `clearChat`: empty transcript, no error; input, busy flag and
      settings are left as they are. */
  function ClearChat(s: ChatState): (r: ChatState)
    ensures r.messages == [] && r.error.None?
    ensures r.input == s.input && r.loading == s.loading && r.topK == s.topK
  {
    s.(messages := [], error := None)
  }

  /** The download name: the last '/'-segment of the image URL, or a
      time-stamped PNG name when that segment is empty. */
  function DownloadFilename(imageUrl: string, now: nat): (name: string)
    ensures name != ""
    ensures LastSegment(imageUrl, '/') != "" ==> name == LastSegment(imageUrl, '/')
    ensures LastSegment(imageUrl, '/') == "" ==> name == "chat_image_" + NatToString(now) + ".png"
  {
    var last := LastSegment(imageUrl, '/');
    if last != "" then last else "chat_image_" + NatToString(now) + ".png"
  }

  /** A stored thumbnail downloads under its object's file name, the id
      followed by ".png". */
  lemma ThumbnailDownloadName(minioUrl: string, bucket: string, id: string, now: nat)
    requires '/' !in id
    ensures DownloadFilename(Minio.ObjectUrl(minioUrl, bucket, Minio.ThumbObjectName(id)), now) == id + ".png"
  {
    var file := id + ".png";
    var front := minioUrl + "/" + bucket + "/thumbs";
    assert Minio.ObjectUrl(minioUrl, bucket, Minio.ThumbObjectName(id)) == front + ['/'] + file;
    assert '/' !in ".png";
    assert '/' !in file;
    LastSegmentAfter(front, file, '/');
  }

  /** A URL ending in '/' downloads under the time-stamped name. */
  lemma TrailingSlashUsesFallback(front: string, now: nat)
    ensures DownloadFilename(front + "/", now) == "chat_image_" + NatToString(now) + ".png"
  {
    assert front + "/" == front + ['/'] + "";
    LastSegmentAfter(front, "", '/');
  }
}
