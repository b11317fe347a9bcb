/**
 * The transport adapter: the request body sent to the ad-generation pipeline
 * and the legacy chat-shaped view of its answer. The network call itself is
 * an input: what the pipeline answered, or that the call threw.
 */
module AdGeneratorApi {
  import opened ChatTypes

  /** The `generated_image` object: a success flag and three candidate locations. */
  datatype GeneratedImage = GeneratedImage(
    success: bool,
    imageUrl: Option<string>,
    url: Option<string>,
    data: Option<seq<Option<string>>>)

  /** `AdGenerationResponse`, restricted to the fields the client reads. */
  datatype GenerationResponse = GenerationResponse(
    success: bool,
    sessionId: string,
    initialPrompt: string,
    enhancedPrompt: Option<string>,
    generatedPost: Option<string>,
    complianceCheck: Option<string>,
    imagePrompt: Option<string>,
    generatedImage: Option<GeneratedImage>,
    error: Option<string>)

  /** What one POST delivered: a decoded body, or a thrown transport error. */
  datatype TransportResult = Responded(body: GenerationResponse) | Threw

  /** The request body; an absent key is `None`. */
  datatype GenerationRequest = GenerationRequest(
    initialPrompt: string,
    feedback: string,
    userId: string,
    sessionId: Option<string>,
    final: Option<bool>)

  /** The legacy `ChatResponse` shape. */
  datatype ChatResponse = ChatResponse(
    success: bool,
    sessionId: string,
    message: string,
    response: Option<string>,
    error: Option<string>)

  datatype ChatResult = ChatResponded(chat: ChatResponse) | ChatThrew

  const DefaultUserId := "default_user"

  /**
   * The body `sendMessage` posts. Keys are omitted rather than sent empty or
   * false: `session_id` only for a non-empty session id, `final` only when true.
   */
  function RequestFor(message: string, sessionId: Option<string>, feedback: Option<string>,
                      final: bool, userId: Option<string>): (r: GenerationRequest)
    ensures r.initialPrompt == message
    ensures userId.Some? ==> r.userId == userId.value
    ensures userId.None? ==> r.userId == DefaultUserId
    ensures Truthy(feedback) ==> r.feedback == feedback.value
    ensures !Truthy(feedback) ==> r.feedback == ""
    ensures r.sessionId.Some? <==> Truthy(sessionId)
    ensures r.sessionId.Some? ==> r.sessionId == sessionId && r.sessionId.value != ""
    ensures r.final.Some? <==> final
    ensures r.final != Some(false)
  {
    GenerationRequest(
      message,
      if Truthy(feedback) then feedback.value else "",
      if userId.Some? then userId.value else DefaultUserId,
      if Truthy(sessionId) then sessionId else None,
      if final then Some(true) else None)
  }

  /**
   * `AdGeneratorAPI.sendMessage`: builds the payload by adding the optional
   * keys one by one, posts it once, and hands back the answer unchanged (a
   * thrown transport error is rethrown).
   */
  method SendMessage(message: string, sessionId: Option<string>, feedback: Option<string>,
                     final: bool, userId: Option<string>, transport: TransportResult)
    returns (payload: GenerationRequest, result: TransportResult)
    ensures payload == RequestFor(message, sessionId, feedback, final, userId)
    ensures result == transport
  {
    var user := if userId.Some? then userId.value else DefaultUserId;
    payload := GenerationRequest(message, if Truthy(feedback) then feedback.value else "", user, None, None);
    if Truthy(sessionId) {
      payload := payload.(sessionId := sessionId);
    }
    if final {
      payload := payload.(final := Some(true));
    }
    result := transport;
  }

  /**
   * `AdGeneratorAPI.sendChatMessage`: always a non-final request; the answer is
   * renamed field by field into the chat shape, and a throw propagates.
   */
  method SendChatMessage(message: string, sessionId: Option<string>, feedback: Option<string>,
                         userId: Option<string>, transport: TransportResult)
    returns (payload: GenerationRequest, result: ChatResult)
    ensures payload == RequestFor(message, sessionId, feedback, false, userId)
    ensures payload.final.None?
    ensures transport.Threw? <==> result.ChatThrew?
    ensures transport.Responded? ==>
              var body := transport.body;
              result.chat == ChatResponse(body.success, body.sessionId, body.initialPrompt,
                                          body.generatedPost, body.error)
  {
    var answer;
    payload, answer := SendMessage(message, sessionId, feedback, false, userId, transport);
    if answer.Threw? {
      result := ChatThrew;
    } else {
      var body := answer.body;
      result := ChatResponded(ChatResponse(body.success, body.sessionId, body.initialPrompt,
                                           body.generatedPost, body.error));
    }
  }
}
