/** The OpenAI vision helper used by the chat route: client construction,
    image encoding into data URLs, the message list sent to the chat
    completion endpoint and the interpretation of its reply. The JPEG codec
    with base64 and the endpoint itself are function parameters. */
module OpenAi {
  import opened Wrappers
  import opened Strings
  import opened Imaging

  const MissingKey: string := "OPENAI_API_KEY is required but not set"

  datatype Client = Client(apiKey: string, model: string)

  /** `OpenAIService()`: construction needs a non-empty API key. */
  function NewClient(apiKey: Option<string>, model: string): (r: Result<Client, string>)
    ensures r.Failure? <==> apiKey.None? || apiKey.value == ""
    ensures r.Failure? ==> r.error == MissingKey
    ensures r.Success? ==> r.value.apiKey == apiKey.value && r.value.model == model
  {
    if apiKey.None? || apiKey.value == "" then Failure(MissingKey)
    else Success(Client(apiKey.value, model))
  }

  // -----------------------------------------------------------------------
  // Image encoding
  // -----------------------------------------------------------------------

  const DataUrlPrefix: string := "data:image/jpeg;base64,"

  /** The image handed to the JPEG encoder: transparent and palette modes
      are converted to RGB, everything else is passed as it is. */
  function JpegReady(img: Image): (r: Image)
    ensures !NeedsRgbConversion(r)
    ensures r.width == img.width && r.height == img.height
    ensures !NeedsRgbConversion(img) ==> r == img
  {
    if NeedsRgbConversion(img) then img.(mode := "RGB") else img
  }

  /** `_encode_image_to_base64`: `jpeg` is JPEG encoding followed by base64
      text; its failure is re-raised as "Failed to encode image: …". */
  function EncodeImage(img: Image, jpeg: Image -> Result<string, string>): (r: Result<string, string>)
    ensures r.Success? <==> jpeg(JpegReady(img)).Success?
    ensures r.Success? ==> StartsWith(r.value, DataUrlPrefix)
    ensures r.Failure? ==> r.error == "Failed to encode image: " + jpeg(JpegReady(img)).error
  {
    match jpeg(JpegReady(img))
    case Success(b64) => Success(DataUrlPrefix + b64)
    case Failure(e) => Failure("Failed to encode image: " + e)
  }

  /** The base64 payload of a data URL. */
  function DataUrlPayload(url: string): string
    requires StartsWith(url, DataUrlPrefix)
  {
    url[|DataUrlPrefix|..]
  }

  /** The payload of an encoded image is exactly the encoder's output for
      the RGB-ready image. */
  lemma EncodeImagePayload(img: Image, jpeg: Image -> Result<string, string>)
    requires jpeg(JpegReady(img)).Success?
    ensures DataUrlPayload(EncodeImage(img, jpeg).value) == jpeg(JpegReady(img)).value
  {
  }

  // -----------------------------------------------------------------------
  // Messages
  // -----------------------------------------------------------------------

  datatype Part = TextPart(text: string) | ImagePart(url: string, detail: string)

  datatype Message = SystemMessage(content: string) | UserMessage(parts: seq<Part>)

  /** The positions of the images that encode, in increasing order. */
  function EncodedPositions(images: seq<Image>, jpeg: Image -> Result<string, string>): (pos: seq<nat>)
    ensures forall j :: 0 <= j < |pos| ==> pos[j] < |images|
    ensures forall j, l :: 0 <= j < l < |pos| ==> pos[j] < pos[l]
    ensures forall i :: 0 <= i < |images| ==> (EncodeImage(images[i], jpeg).Success? <==> i in pos)
  {
    if |images| == 0 then []
    else
      var front := EncodedPositions(images[..|images| - 1], jpeg);
      assert forall i :: 0 <= i < |images| - 1 ==> images[..|images| - 1][i] == images[i];
      if EncodeImage(images[|images| - 1], jpeg).Success? then front + [|images| - 1] else front
  }

  /** `_format_images_for_openai`: one image part per image that encodes,
      in input order; images that fail to encode are skipped. */
  function FormatImages(images: seq<Image>, jpeg: Image -> Result<string, string>): (parts: seq<Part>)
    ensures var pos := EncodedPositions(images, jpeg);
      && |parts| == |pos|
      && forall j :: 0 <= j < |parts| ==>
           parts[j] == ImagePart(EncodeImage(images[pos[j]], jpeg).value, "auto")
  {
    if |images| == 0 then []
    else
      var front := FormatImages(images[..|images| - 1], jpeg);
      assert forall i :: 0 <= i < |images| - 1 ==> images[..|images| - 1][i] == images[i];
      match EncodeImage(images[|images| - 1], jpeg)
      case Success(url) => front + [ImagePart(url, "auto")]
      case Failure(_) => front
  }

  /** Every image part carries a JPEG data URL. */
  lemma FormatImagesAreDataUrls(images: seq<Image>, jpeg: Image -> Result<string, string>)
    ensures forall p :: p in FormatImages(images, jpeg) ==> p.ImagePart? && StartsWith(p.url, DataUrlPrefix)
  {
    var parts := FormatImages(images, jpeg);
    var pos := EncodedPositions(images, jpeg);
    forall p | p in parts
      ensures p.ImagePart? && StartsWith(p.url, DataUrlPrefix)
    {
      var j :| 0 <= j < |parts| && parts[j] == p;
      assert EncodeImage(images[pos[j]], jpeg).Success?;
    }
  }

  /** Python truthiness of an optional string. */
  predicate Truthy(s: Option<string>) {
    s.Some? && s.value != ""
  }

  /** The message list: a system entry first when a system message is
      given, then the user entry holding the prompt and the image parts. */
  function BuildMessages(prompt: string, parts: seq<Part>, system: Option<string>): (msgs: seq<Message>)
    ensures |msgs| == if Truthy(system) then 2 else 1
    ensures Truthy(system) ==> msgs[0] == SystemMessage(system.value)
    ensures msgs[|msgs| - 1] == UserMessage([TextPart(prompt)] + parts)
    ensures forall m :: m in msgs[..|msgs| - 1] ==> m.SystemMessage?
  {
    var user := UserMessage([TextPart(prompt)] + parts);
    if Truthy(system) then [SystemMessage(system.value), user] else [user]
  }

  // -----------------------------------------------------------------------
  // analyze_images_with_prompt
  // -----------------------------------------------------------------------

  datatype ChoiceMessage = ChoiceMessage(content: Option<string>)
  datatype Choice = Choice(message: Option<ChoiceMessage>)

  /** What the chat completion call gives back: an exception or choices. */
  datatype Reply = Raised(error: string) | Choices(choices: seq<Choice>)

  /** The request the helper sent, if it got that far, and its outcome. */
  datatype Analysis = Analysis(sent: Option<seq<Message>>, outcome: Result<string, string>)

  const NoImages: string := "At least one image is required"
  const BlankPrompt: string := "Prompt cannot be empty"
  const NoValidImages: string := "No valid images could be processed"
  const NoReply: string := "No response received from OpenAI"
  const EmptyAnswer: string := "No response generated"

  function AnalysisError(e: string): string {
    "Failed to analyze images: " + e
  }

  /** `analyze_images_with_prompt`: three checks in order (no images, blank
      prompt, no image that encodes), then one call with the assembled
      messages; an empty answer is replaced, and every failure is re-raised
      with the "Failed to analyze images: " prefix. */
  function AnalyzeImages(prompt: string, images: seq<Image>, system: Option<string>,
                         jpeg: Image -> Result<string, string>, call: seq<Message> -> Reply)
    : (r: Analysis)
    ensures |images| == 0 ==> r == Analysis(None, Failure(AnalysisError(NoImages)))
    ensures |images| > 0 && IsBlank(prompt) ==> r == Analysis(None, Failure(AnalysisError(BlankPrompt)))
    ensures |images| > 0 && !IsBlank(prompt) && |EncodedPositions(images, jpeg)| == 0 ==>
      r == Analysis(None, Failure(AnalysisError(NoValidImages)))
    ensures r.sent.Some? <==> |images| > 0 && !IsBlank(prompt) && |EncodedPositions(images, jpeg)| > 0
    ensures r.sent.Some? ==> r.sent.value == BuildMessages(prompt, FormatImages(images, jpeg), system)
    ensures r.sent.Some? ==> r.outcome == Interpret(call(r.sent.value))
    ensures r.outcome.Success? ==> r.sent.Some? && r.outcome.value != ""
    ensures r.outcome.Failure? ==> exists e :: r.outcome.error == AnalysisError(e)
  {
    if |images| == 0 then Analysis(None, Failure(AnalysisError(NoImages)))
    else if IsBlank(prompt) then Analysis(None, Failure(AnalysisError(BlankPrompt)))
    else
      var parts := FormatImages(images, jpeg);
      if |parts| == 0 then Analysis(None, Failure(AnalysisError(NoValidImages)))
      else
        var msgs := BuildMessages(prompt, parts, system);
        Analysis(Some(msgs), Interpret(call(msgs)))
  }

  /** Reading the reply: the first choice's text, or the placeholder when
      that text is missing or empty. */
  function Interpret(reply: Reply): (r: Result<string, string>)
    ensures r.Success? <==> reply.Choices? && |reply.choices| > 0 && reply.choices[0].message.Some?
    ensures r.Success? ==> r.value != ""
    ensures r.Success? && Truthy(reply.choices[0].message.value.content) ==>
      r.value == reply.choices[0].message.value.content.value
    ensures r.Success? && !Truthy(reply.choices[0].message.value.content) ==> r.value == EmptyAnswer
    ensures r.Failure? && reply.Choices? ==> r.error == AnalysisError(NoReply)
    ensures r.Failure? && reply.Raised? ==> r.error == AnalysisError(reply.error)
  {
    match reply
    case Raised(e) => Failure(AnalysisError(e))
    case Choices(cs) =>
      if |cs| > 0 && cs[0].message.Some? then
        var content := cs[0].message.value.content;
        Success(if content.None? || content.value == "" then EmptyAnswer else content.value)
      else Failure(AnalysisError(NoReply))
  }

  // -----------------------------------------------------------------------
  // conversational_analysis / health_check
  // -----------------------------------------------------------------------

  /** The system message of the conversational analysis, with the line
      breaks and indentation of the source's triple-quoted literal. */
  const ConversationSystem: string :=
    "You are an AI assistant helping users analyze and understand document images. \n"
    + "        The user has asked a question, and you have been provided with relevant images retrieved from their document collection.\n"
    + "        \n"
    + "        Your task is to:\n"
    + "        1. Analyze the provided images carefully\n"
    + "        2. Answer the user's question based on what you can see in the images\n"
    + "        3. Be specific and reference details from the images when relevant\n"
    + "        4. If the images don't contain enough information to fully answer the question, acknowledge this\n"
    + "        5. Provide helpful insights and context where possible\n"
    + "        \n"
    + "        Be conversational and helpful in your response."

  /** The user prompt with the retrieval context placed in front of it when
      a non-empty context is given. */
  function EnhancedPrompt(prompt: string, context: Option<string>): (r: string)
    ensures EndsWith(r, prompt)
    ensures !Truthy(context) ==> r == prompt
    ensures Truthy(context) ==>
      && StartsWith(r, "Context about retrieved images: " + context.value)
      && r[|"Context about retrieved images: " + context.value|..] == "\n\nUser question: " + prompt
  {
    if Truthy(context) then "Context about retrieved images: " + context.value + "\n\nUser question: " + prompt
    else prompt
  }

  /** With a context the enhanced prompt is never blank, so the blank
      prompt check cannot fire. */
  lemma EnhancedPromptNotBlank(prompt: string, context: Option<string>)
    ensures Truthy(context) ==> !IsBlank(EnhancedPrompt(prompt, context))
  {
    if Truthy(context) {
      var r := EnhancedPrompt(prompt, context);
      assert r[0] == 'C';
    }
  }

  /** `conversational_analysis`: the image analysis with the conversation
      system message and the enhanced prompt. */
  function ConversationalAnalysis(prompt: string, images: seq<Image>, context: Option<string>,
                                  jpeg: Image -> Result<string, string>, call: seq<Message> -> Reply)
    : (r: Analysis)
    ensures r.sent.Some? ==>
      && |r.sent.value| == 2
      && r.sent.value[0] == SystemMessage(ConversationSystem)
      && r.sent.value[1] == UserMessage([TextPart(EnhancedPrompt(prompt, context))] + FormatImages(images, jpeg))
    ensures Truthy(context) && |images| > 0 ==>
      (r.sent.Some? <==> |EncodedPositions(images, jpeg)| > 0)
    ensures |images| == 0 ==> r == Analysis(None, Failure(AnalysisError(NoImages)))
    ensures |images| > 0 && IsBlank(prompt) && !Truthy(context) ==>
      r == Analysis(None, Failure(AnalysisError(BlankPrompt)))
    ensures |images| > 0 && !IsBlank(EnhancedPrompt(prompt, context)) && |EncodedPositions(images, jpeg)| == 0 ==>
      r == Analysis(None, Failure(AnalysisError(NoValidImages)))
    ensures r.sent.Some? ==> r.outcome == Interpret(call(r.sent.value))
  {
    EnhancedPromptNotBlank(prompt, context);
    AnalyzeImages(EnhancedPrompt(prompt, context), images, Some(ConversationSystem), jpeg, call)
  }

  /** `health_check`: one probe call; any exception or an empty choice list
      reads as unhealthy. */
  function HealthCheck(reply: Reply): (healthy: bool)
    ensures healthy ==> reply.Choices?
    ensures reply.Choices? ==> (healthy <==> |reply.choices| > 0)
  {
    reply.Choices? && |reply.choices| > 0
  }
}
